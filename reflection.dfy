/**
  The reflection database that the instance queries of lib-roblox read:
  for every class name a descriptor with an optional superclass name, a
  table of property definitions, a table of default property values and a
  set of class tags.  The generated database itself is not modelled; it is
  passed to every query as a `Database` value.
*/
module Reflection {

  datatype Option<+T> = None | Some(value: T)

  /** Unsigned 32-bit integer, the width of an enum item's value. */
  newtype u32 = x: int | 0 <= x < 0x1_0000_0000

  /** The type of a non-enum property value (kept opaque: only its identity matters). */
  datatype ValueType = ValueType(name: string)

  /** The declared data type of a property: an enum, a plain value type,
      or any other kind the reflection format may add later. */
  datatype DataType = Enum(enumName: string) | Value(valueType: ValueType) | OtherDataType

  /** A default property value: only enum items are told apart. */
  datatype DefaultValue = EnumValue(item: u32) | OtherValue(literal: string)

  datatype PropertyDescriptor = PropertyDescriptor(dataType: DataType)

  datatype ClassTag = Service | OtherTag(tagName: string)

  datatype ClassDescriptor = ClassDescriptor(
    superclass: Option<string>,
    properties: map<string, PropertyDescriptor>,
    defaultProperties: map<string, DefaultValue>,
    tags: set<ClassTag>)

  type Database = map<string, ClassDescriptor>

  /** The class a superclass walk moves to from `name`, if it moves at all. */
  predicate HasSuperclass(db: Database, name: string)
  {
    name in db && db[name].superclass.Some?
  }

  /** `depth` ranks the database: following a superclass link to a known
      class always reaches a strictly smaller depth. */
  ghost predicate Ranks(db: Database, depth: map<string, nat>)
  {
    && db.Keys <= depth.Keys
    && forall name :: HasSuperclass(db, name) && db[name].superclass.value in db ==>
         depth[db[name].superclass.value] < depth[name]
  }

  /** The superclass relation has no cycles, so every walk up it ends. */
  ghost predicate WellFounded(db: Database)
  {
    exists depth :: Ranks(db, depth)
  }

  ghost function Depth(db: Database): (depth: map<string, nat>)
    requires WellFounded(db)
    ensures Ranks(db, depth)
  {
    var depth :| Ranks(db, depth); depth
  }

  /** Termination measure of every superclass walk: unknown names end the walk. */
  ghost function Height(db: Database, name: string): nat
    requires WellFounded(db)
  {
    if name in db then Depth(db)[name] + 1 else 0
  }

  lemma HeightDecreases(db: Database, name: string)
    requires WellFounded(db) && HasSuperclass(db, name)
    ensures Height(db, db[name].superclass.value) < Height(db, name)
  {
  }

  /**
    The names a superclass walk from `name` visits, `name` first.  Every
    name but the last is a known class whose superclass is the next name;
    the last one is either unknown or a root of the hierarchy.
  */
  function Chain(db: Database, name: string): (chain: seq<string>)
    requires WellFounded(db)
    ensures |chain| >= 1 && chain[0] == name
    ensures forall k :: 0 <= k < |chain| - 1 ==>
              HasSuperclass(db, chain[k]) && db[chain[k]].superclass.value == chain[k + 1]
    ensures !HasSuperclass(db, chain[|chain| - 1])
    decreases Height(db, name)
  {
    if HasSuperclass(db, name) then
      HeightDecreases(db, name);
      [name] + Chain(db, db[name].superclass.value)
    else
      [name]
  }

  function Last(chain: seq<string>): string
    requires |chain| >= 1
  {
    chain[|chain| - 1]
  }

  /** The superclass walk from `name` ends within `fuel` steps. */
  predicate WalkEnds(db: Database, name: string, fuel: nat)
    decreases fuel
  {
    !HasSuperclass(db, name) || (fuel > 0 && WalkEnds(db, db[name].superclass.value, fuel - 1))
  }

  /** The number of superclass links the walk from `name` follows, counting at most `fuel`. */
  function Steps(db: Database, name: string, fuel: nat): nat
    decreases fuel
  {
    if !HasSuperclass(db, name) || fuel == 0 then 0
    else 1 + Steps(db, db[name].superclass.value, fuel - 1)
  }

  /** More fuel changes nothing for a walk that already ends. */
  lemma {:induction false} StepsStable(db: Database, name: string, fuel: nat, more: nat)
    requires WalkEnds(db, name, fuel) && fuel <= more
    ensures WalkEnds(db, name, more) && Steps(db, name, more) == Steps(db, name, fuel)
    decreases fuel
  {
    if HasSuperclass(db, name) {
      StepsStable(db, db[name].superclass.value, fuel - 1, more - 1);
    }
  }

  /** A database in which every walk ends within a bound is well founded:
      the number of steps to the end ranks it. */
  lemma WellFoundedIfWalksEnd(db: Database, fuel: nat)
    requires forall name :: name in db ==> WalkEnds(db, name, fuel)
    ensures WellFounded(db)
  {
    var depth := map name | name in db :: Steps(db, name, fuel);
    forall name | HasSuperclass(db, name) && db[name].superclass.value in db
      ensures depth[db[name].superclass.value] < depth[name]
    {
      var parent := db[name].superclass.value;
      StepsStable(db, parent, fuel - 1, fuel);
    }
    assert Ranks(db, depth);
  }

  /** Every name on a chain starts a chain of its own: the rest of the first. */
  lemma {:induction false} ChainSuffix(db: Database, name: string, k: nat)
    requires WellFounded(db)
    requires k < |Chain(db, name)|
    ensures Chain(db, Chain(db, name)[k]) == Chain(db, name)[k..]
    decreases Height(db, name)
  {
    if k > 0 {
      assert HasSuperclass(db, name);
      HeightDecreases(db, name);
      var parent := db[name].superclass.value;
      ChainSuffix(db, parent, k - 1);
      DropFirst(name, Chain(db, parent), k);
    }
  }

  /** A chain holds the chain of each of its names. */
  lemma ChainContains(db: Database, name: string, ancestor: string)
    requires WellFounded(db)
    requires ancestor in Chain(db, name)
    ensures forall other :: other in Chain(db, ancestor) ==> other in Chain(db, name)
  {
    var k :| 0 <= k < |Chain(db, name)| && Chain(db, name)[k] == ancestor;
    ChainSuffix(db, name, k);
  }

  lemma DropFirst<T>(x: T, s: seq<T>, k: nat)
    requires 1 <= k <= |s|
    ensures ([x] + s)[k] == s[k - 1]
    ensures ([x] + s)[k..] == s[k - 1..]
  {
  }
}
