/**
  Class-hierarchy reflection queries of lib-roblox's `shared/instance.rs`:
  property lookup through superclasses, class existence, `IsA` ancestry and
  the service test.  Each walk up the superclass links is an imperative
  method with a loop, proved equal to a recursive specification function;
  the lemmas below characterise those functions through `Chain`.
*/
module Instance {
  import opened Reflection

  /** What a property lookup reports about a property. */
  datatype PropertyInfo = PropertyInfo(
    enumName: Option<string>,
    enumDefault: Option<u32>,
    valueType: Option<ValueType>,
    valueDefault: Option<DefaultValue>)

  function Get<K, V>(m: map<K, V>, key: K): Option<V>
  {
    if key in m then Some(m[key]) else None
  }

  /**
    The information reported for a property with the given data type and
    default value: enum properties report only their enum name and enum
    item, value properties only their type and default, others nothing.
  */
  function PropertyInfoOf(dataType: DataType, default: Option<DefaultValue>): (info: PropertyInfo)
    ensures info.enumName.None? || info.valueType.None?
    ensures info.enumName.Some? <==> dataType.Enum?
    ensures info.valueType.Some? <==> dataType.Value?
    ensures dataType.Enum? ==> info.enumName.value == dataType.enumName
    ensures dataType.Value? ==> info.valueType.value == dataType.valueType
    ensures info.enumDefault.Some? <==> dataType.Enum? && default.Some? && default.value.EnumValue?
    ensures info.enumDefault.Some? ==> default == Some(EnumValue(info.enumDefault.value))
    ensures info.valueDefault == if dataType.Value? then default else None
  {
    match dataType
    case Enum(enumName) =>
      var enumDefault := match default
        case Some(EnumValue(item)) => Some(item)
        case _ => None;
      PropertyInfo(Some(enumName), enumDefault, None, None)
    case Value(valueType) =>
      PropertyInfo(None, None, Some(valueType), default)
    case OtherDataType =>
      PropertyInfo(None, None, None, None)
  }

  /** The data type a property info was built from, when it records one. */
  function DataTypeOf(info: PropertyInfo): Option<DataType>
  {
    if info.enumName.Some? then Some(Enum(info.enumName.value))
    else if info.valueType.Some? then Some(Value(info.valueType.value))
    else None
  }

  /** The default value a property info still carries. */
  function DefaultOf(info: PropertyInfo): Option<DefaultValue>
  {
    if info.enumDefault.Some? then Some(EnumValue(info.enumDefault.value)) else info.valueDefault
  }

  /** A property info loses only the data types it has no field for and the
      defaults that do not fit the property's kind. */
  lemma PropertyInfoRoundTrip(dataType: DataType, default: Option<DefaultValue>)
    ensures DataTypeOf(PropertyInfoOf(dataType, default)) ==
              if dataType.OtherDataType? then None else Some(dataType)
    ensures DefaultOf(PropertyInfoOf(dataType, default)) ==
              match dataType
              case Value(_) => default
              case Enum(_) => if default.Some? && default.value.EnumValue? then default else None
              case OtherDataType => None
  {
  }

  /** The info for property `name` as class `descriptor` defines it, with
      the default taken from that same class. */
  function Describe(descriptor: ClassDescriptor, name: string): PropertyInfo
    requires name in descriptor.properties
  {
    PropertyInfoOf(descriptor.properties[name].dataType, Get(descriptor.defaultProperties, name))
  }

  predicate Defines(db: Database, className: string, propertyName: string)
  {
    className in db && propertyName in db[className].properties
  }

  // ----- find_property_info -----

  /** Specification of the property lookup: the nearest class on the walk
      that defines the property answers. */
  function PropertyLookup(db: Database, className: string, propertyName: string): Option<PropertyInfo>
    requires WellFounded(db)
    decreases Height(db, className)
  {
    if className !in db then None
    else if propertyName in db[className].properties then
      Some(Describe(db[className], propertyName))
    else if db[className].superclass.Some? then
      HeightDecreases(db, className);
      PropertyLookup(db, db[className].superclass.value, propertyName)
    else None
  }

  method FindPropertyInfo(db: Database, instanceClass: string, propertyName: string)
    returns (info: Option<PropertyInfo>)
    requires WellFounded(db)
    ensures info == PropertyLookup(db, instanceClass, propertyName)
  {
    var current := instanceClass;
    while current in db
      invariant PropertyLookup(db, current, propertyName) == PropertyLookup(db, instanceClass, propertyName)
      decreases Height(db, current)
    {
      var descriptor := db[current];
      if propertyName in descriptor.properties {
        var default := Get(descriptor.defaultProperties, propertyName);
        return Some(PropertyInfoOf(descriptor.properties[propertyName].dataType, default));
      } else if descriptor.superclass.Some? {
        HeightDecreases(db, current);
        current := descriptor.superclass.value;
      } else {
        break;
      }
    }
    return None;
  }

  /** The lookup finds nothing exactly when no class on the chain defines
      the property. */
  lemma {:induction false} PropertyLookupNone(db: Database, className: string, propertyName: string)
    requires WellFounded(db)
    ensures PropertyLookup(db, className, propertyName).None? <==>
              forall name :: name in Chain(db, className) ==> !Defines(db, name, propertyName)
    decreases Height(db, className)
  {
    if className in db && propertyName !in db[className].properties && db[className].superclass.Some? {
      HeightDecreases(db, className);
      var parent := db[className].superclass.value;
      PropertyLookupNone(db, parent, propertyName);
      assert Chain(db, className) == [className] + Chain(db, parent);
    } else if Defines(db, className, propertyName) {
      assert className in Chain(db, className);
    }
  }

  /**
    When the `k`-th class of the chain is the nearest one defining the
    property, the lookup reports that class's definition and that class's
    default: a subclass definition shadows its ancestors' ones.
  */
  lemma {:induction false} PropertyLookupNearest(db: Database, className: string, propertyName: string, k: nat)
    requires WellFounded(db)
    requires k < |Chain(db, className)| && Defines(db, Chain(db, className)[k], propertyName)
    requires forall j :: 0 <= j < k ==> !Defines(db, Chain(db, className)[j], propertyName)
    ensures PropertyLookup(db, className, propertyName) ==
              Some(Describe(db[Chain(db, className)[k]], propertyName))
    decreases Height(db, className)
  {
    if k > 0 {
      var chain := Chain(db, className);
      assert !Defines(db, chain[0], propertyName);
      assert HasSuperclass(db, className);
      HeightDecreases(db, className);
      var parent := db[className].superclass.value;
      var rest := Chain(db, parent);
      assert chain == [className] + rest;
      DropFirst(className, rest, k);
      forall j | 0 <= j < k - 1 ensures !Defines(db, rest[j], propertyName) {
        DropFirst(className, rest, j + 1);
        assert rest[j] == chain[j + 1];
      }
      PropertyLookupNearest(db, parent, propertyName, k - 1);
    }
  }

  /** A class's own definition of a property shadows every ancestor's, and
      its default comes from the class itself, never from an ancestor. */
  lemma OwnDefinitionShadows(db: Database, className: string, propertyName: string)
    requires WellFounded(db)
    requires Defines(db, className, propertyName)
    ensures PropertyLookup(db, className, propertyName) == Some(Describe(db[className], propertyName))
    ensures propertyName !in db[className].defaultProperties ==>
              DefaultOf(PropertyLookup(db, className, propertyName).value) == None
  {
  }

  // ----- class_exists -----

  function ClassExists(db: Database, className: string): (known: bool)
    ensures known <==> className in db
  {
    className in db
  }

  // ----- class_is_a -----

  /** Specification of the `while` loop of `class_is_a`. */
  function IsAWalk(db: Database, current: string, className: string): Option<bool>
    requires WellFounded(db)
    decreases Height(db, current)
  {
    if current == className then Some(true)
    else if current !in db then None
    else if db[current].superclass.None? then Some(false)
    else
      HeightDecreases(db, current);
      IsAWalk(db, db[current].superclass.value, className)
  }

  /** Specification of `class_is_a`: every class is an "Instance" and is itself,
      without any lookup; otherwise walk the superclass chain. */
  function IsA(db: Database, instanceClass: string, className: string): Option<bool>
    requires WellFounded(db)
  {
    if className == "Instance" || instanceClass == className then Some(true)
    else IsAWalk(db, instanceClass, className)
  }

  method ClassIsA(db: Database, instanceClass: string, className: string) returns (isA: Option<bool>)
    requires WellFounded(db)
    ensures isA == IsA(db, instanceClass, className)
  {
    if className == "Instance" || instanceClass == className {
      return Some(true);
    }
    var current := instanceClass;
    while current != className
      invariant IsAWalk(db, current, className) == IsA(db, instanceClass, className)
      decreases Height(db, current)
    {
      if current !in db {
        return None;
      }
      var descriptor := db[current];
      if descriptor.superclass.Some? {
        HeightDecreases(db, current);
        current := descriptor.superclass.value;
      } else {
        return Some(false);
      }
    }
    return Some(true);
  }

  lemma {:induction false} IsAWalkChain(db: Database, current: string, className: string)
    requires WellFounded(db)
    ensures IsAWalk(db, current, className) == Some(true) <==> className in Chain(db, current)
    ensures IsAWalk(db, current, className) == None <==>
              className !in Chain(db, current) && Last(Chain(db, current)) !in db
    decreases Height(db, current)
  {
    if current != className && HasSuperclass(db, current) {
      HeightDecreases(db, current);
      IsAWalkChain(db, db[current].superclass.value, className);
    }
  }

  /**
    `IsA(a, b)` holds exactly when `b` is "Instance" or lies on the chain
    from `a` (inclusive); it is unknown (`None`) exactly when the chain
    ends at an unknown class before meeting `b`; it is false when the
    chain ends at a root without meeting `b`.
  */
  lemma IsAChain(db: Database, instanceClass: string, className: string)
    requires WellFounded(db)
    ensures IsA(db, instanceClass, className) == Some(true) <==>
              className == "Instance" || className in Chain(db, instanceClass)
    ensures IsA(db, instanceClass, className) == None <==>
              className != "Instance" && className !in Chain(db, instanceClass) &&
              Last(Chain(db, instanceClass)) !in db
    ensures IsA(db, instanceClass, className) == Some(false) <==>
              className != "Instance" && className !in Chain(db, instanceClass) &&
              Last(Chain(db, instanceClass)) in db
  {
    IsAWalkChain(db, instanceClass, className);
    var isA := IsA(db, instanceClass, className);
    if isA.Some? && !isA.value {
      assert isA == Some(false);
    }
  }

  /** No lookup happens for "Instance" or for the class itself, so even an
      unknown class is an "Instance" and is itself. */
  lemma IsAInstanceAndSelf(db: Database, instanceClass: string)
    requires WellFounded(db)
    ensures IsA(db, instanceClass, "Instance") == Some(true)
    ensures IsA(db, instanceClass, instanceClass) == Some(true)
  {
  }

  /** "Instance" is the root of the hierarchy (or unknown). */
  predicate InstanceIsRoot(db: Database)
  {
    !HasSuperclass(db, "Instance")
  }

  /** Along the superclass links `IsA` is transitive, as long as "Instance",
      which every class is said to be, is the root. */
  lemma IsATransitive(db: Database, a: string, b: string, c: string)
    requires WellFounded(db) && InstanceIsRoot(db)
    requires IsA(db, a, b) == Some(true) && IsA(db, b, c) == Some(true)
    ensures IsA(db, a, c) == Some(true)
  {
    IsAChain(db, a, b);
    IsAChain(db, b, c);
    IsAChain(db, a, c);
    if c != "Instance" {
      // "Instance" is a root, so `c` on its chain would be "Instance" itself
      assert b != "Instance";
      ChainContains(db, a, b);
    }
  }

  /** Without a root "Instance" transitivity fails: with "Instance" below
      "Object", every class is an "Instance" and "Instance" is an "Object",
      but an unrelated root class is not an "Object". */
  lemma IsANotTransitiveAboveInstance()
    ensures var db := map[
        "Instance" := ClassDescriptor(Some("Object"), map[], map[], {}),
        "Object" := ClassDescriptor(None, map[], map[], {}),
        "Other" := ClassDescriptor(None, map[], map[], {})];
      && Ranks(db, map["Instance" := 1, "Object" := 0, "Other" := 0])
      && IsA(db, "Other", "Instance") == Some(true)
      && IsA(db, "Instance", "Object") == Some(true)
      && IsA(db, "Other", "Object") == Some(false)
  {
  }

  // ----- class_is_a_service -----

  predicate TaggedService(db: Database, className: string)
  {
    className in db && Service in db[className].tags
  }

  /** Specification of `class_is_a_service`. */
  function IsAService(db: Database, instanceClass: string): Option<bool>
    requires WellFounded(db)
    decreases Height(db, instanceClass)
  {
    if instanceClass !in db then None
    else if Service in db[instanceClass].tags then Some(true)
    else if db[instanceClass].superclass.Some? then
      HeightDecreases(db, instanceClass);
      IsAService(db, db[instanceClass].superclass.value)
    else Some(false)
  }

  method ClassIsAService(db: Database, instanceClass: string) returns (isService: Option<bool>)
    requires WellFounded(db)
    ensures isService == IsAService(db, instanceClass)
  {
    var current := instanceClass;
    while true
      invariant IsAService(db, current) == IsAService(db, instanceClass)
      decreases Height(db, current)
    {
      if current !in db {
        return None;
      }
      var descriptor := db[current];
      if Service in descriptor.tags {
        return Some(true);
      } else if descriptor.superclass.Some? {
        HeightDecreases(db, current);
        current := descriptor.superclass.value;
      } else {
        break;
      }
    }
    return Some(false);
  }

  /**
    A class is a service exactly when some class on its chain carries the
    Service tag; the answer is unknown exactly when no class on the chain
    does and the chain ends at an unknown class.
  */
  lemma {:induction false} IsAServiceChain(db: Database, instanceClass: string)
    requires WellFounded(db)
    ensures IsAService(db, instanceClass) == Some(true) <==>
              exists name :: name in Chain(db, instanceClass) && TaggedService(db, name)
    ensures IsAService(db, instanceClass) == None <==>
              (forall name :: name in Chain(db, instanceClass) ==> !TaggedService(db, name)) &&
              Last(Chain(db, instanceClass)) !in db
    decreases Height(db, instanceClass)
  {
    var chain := Chain(db, instanceClass);
    if HasSuperclass(db, instanceClass) {
      HeightDecreases(db, instanceClass);
      var parent := db[instanceClass].superclass.value;
      IsAServiceChain(db, parent);
      assert chain == [instanceClass] + Chain(db, parent);
      assert Last(chain) == Last(Chain(db, parent));
      assert forall name :: name in chain <==> name == instanceClass || name in Chain(db, parent);
    } else {
      assert chain == [instanceClass];
    }
    if TaggedService(db, instanceClass) {
      assert instanceClass in chain;
    }
  }

  /** A subclass of a service is a service. */
  lemma ServiceInherited(db: Database, a: string, b: string)
    requires WellFounded(db)
    requires b != "Instance" && IsA(db, a, b) == Some(true)
    requires IsAService(db, b) == Some(true)
    ensures IsAService(db, a) == Some(true)
  {
    IsAChain(db, a, b);
    ChainContains(db, a, b);
    IsAServiceChain(db, a);
    IsAServiceChain(db, b);
  }

  /** A subclass has every property of its ancestors (possibly redefined). */
  lemma PropertyInherited(db: Database, a: string, b: string, propertyName: string)
    requires WellFounded(db)
    requires b != "Instance" && IsA(db, a, b) == Some(true)
    requires PropertyLookup(db, b, propertyName).Some?
    ensures PropertyLookup(db, a, propertyName).Some?
  {
    IsAChain(db, a, b);
    ChainContains(db, a, b);
    PropertyLookupNone(db, a, propertyName);
    PropertyLookupNone(db, b, propertyName);
  }

  /** Every query about an unknown class fails, except the `IsA` cases that
      need no lookup. */
  lemma UnknownClass(db: Database, className: string, propertyName: string, other: string)
    requires WellFounded(db) && !ClassExists(db, className)
    ensures PropertyLookup(db, className, propertyName) == None
    ensures IsAService(db, className) == None
    ensures other != "Instance" && other != className ==> IsA(db, className, other) == None
  {
  }
}
