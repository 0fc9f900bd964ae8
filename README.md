# Class-hierarchy reflection of lune's Roblox library, in Dafny

This project models `packages/lib-roblox/src/shared/instance.rs` of lune, the
Luau runtime. The file answers four questions about Roblox classes from the
reflection database:

- `find_property_info` finds a property of a class. It walks up the
  superclass chain to the nearest class that defines the property and
  reports the property's enum name, enum default, value type and default
  value.
- `class_exists` tells whether a class is in the database.
- `class_is_a` is Roblox's `IsA`. It tells whether a class is a given class
  or derives from it.
- `class_is_a_service` tells whether a class or one of its ancestors carries
  the `Service` tag.

## Layout

- `reflection.dfy` (module `Reflection`) holds the database types.
  `ClassDescriptor` has an optional superclass, a property table, a default
  table and a tag set. `Database` is `map<string, ClassDescriptor>`.
  - `WellFounded(db)` says there is no superclass cycle. It holds when some
    depth map strictly decreases along every link to a known class.
  - `Chain(db, c)` lists the names a superclass walk from `c` visits. Every
    name but the last is a known class linked to the next one. The last
    name is a root or an unknown name.
- `instance.dfy` (module `Instance`) holds the four operations.
  - Each of the three walks is an imperative `method` with the source's
    loop: `FindPropertyInfo`, `ClassIsA` and `ClassIsAService`. Each is
    proved equal to a recursive specification function: `PropertyLookup`,
    `IsA` (through `IsAWalk`) and `IsAService`.
  - Lemmas characterise those functions through `Chain`.
  - `ClassExists` is a pure function.
- `fixture.dfy` (module `Fixture`) describes the classes the unit tests ask
  about, with their real superclass links and tags. It proves every
  assertion of those tests for any well-founded database that lists these
  classes this way. `Classes()` is one such database.

## Model

| member | source | states |
|---|---|---|
| `Reflection.Chain` | packages/lib-roblox/src/shared/instance.rs:95-101 | the walk starts at the given class; each name but the last is a known class whose superclass is the next name; the last name is unknown or a root |
| `Reflection.WellFoundedIfWalksEnd` | packages/lib-roblox/src/shared/instance.rs:122-131 | a database whose superclass walks all end within a fixed number of steps has no cycle, so the source's loops terminate on it |
| `Reflection.ChainContains` | packages/lib-roblox/src/shared/instance.rs:95-101 | the chain of any class on a chain is contained in that chain, which is what makes ancestry compose |
| `Instance.PropertyInfoOf` | packages/lib-roblox/src/shared/instance.rs:36-57 | an enum property reports its enum name and, only when the default is an enum item, that item; a value property reports its type and the raw default; anything else reports nothing; never both an enum name and a value type |
| `Instance.PropertyInfoRoundTrip` | packages/lib-roblox/src/shared/instance.rs:36-57 | the data type can be recovered from the info unless it is neither enum nor value; the default survives for value properties and, for enum properties, only when it is an enum item |
| `Instance.FindPropertyInfo` | packages/lib-roblox/src/shared/instance.rs:21-68 | the `while let` loop over the superclass chain returns exactly the specified lookup |
| `Instance.PropertyLookupNone` | packages/lib-roblox/src/shared/instance.rs:31-67 | the lookup returns `None` exactly when no class on the chain defines the property; this covers a class missing from the database |
| `Instance.PropertyLookupNearest` | packages/lib-roblox/src/shared/instance.rs:31-61 | the lookup reports the definition of the nearest class on the chain that defines the property, with the default taken from that same class |
| `Instance.OwnDefinitionShadows` | packages/lib-roblox/src/shared/instance.rs:32-35 | a class's own definition wins over its ancestors'; if that class lists no default, the info carries none, whatever the ancestors list |
| `Instance.PropertyInherited` | packages/lib-roblox/src/shared/instance.rs:59-61 | a property found on an ancestor is also found on every subclass |
| `Instance.ClassExists` | packages/lib-roblox/src/shared/instance.rs:73-76 | a class exists exactly when its name is a key of the database |
| `Instance.UnknownClass` | packages/lib-roblox/src/shared/instance.rs:21-133 | for a class that does not exist, the property lookup and the service test give `None`; `IsA` gives `None` too, except when asked about "Instance" or the class itself |
| `Instance.ClassIsA` | packages/lib-roblox/src/shared/instance.rs:86-106 | the "Instance"/equal-name shortcut followed by the `while` loop returns exactly the specified `IsA` |
| `Instance.IsAChain` | packages/lib-roblox/src/shared/instance.rs:90-104 | `IsA(a, b)` is `Some(true)` iff `b` is "Instance" or on the chain from `a`; it is `None` iff neither holds and the chain ends at an unknown class; it is `Some(false)` iff neither holds and the chain ends at a root |
| `Instance.IsAInstanceAndSelf` | packages/lib-roblox/src/shared/instance.rs:90-91 | every class, known or not, is an "Instance" and is itself |
| `Instance.IsATransitive` | packages/lib-roblox/src/shared/instance.rs:142-150 | when "Instance" is a root, `IsA` is transitive |
| `Instance.IsANotTransitiveAboveInstance` | packages/lib-roblox/src/shared/instance.rs:90-91 | if "Instance" had a superclass, the "Instance" shortcut would break transitivity |
| `Instance.ClassIsAService` | packages/lib-roblox/src/shared/instance.rs:117-134 | the `loop` over the superclass chain returns exactly the specified service test |
| `Instance.IsAServiceChain` | packages/lib-roblox/src/shared/instance.rs:122-133 | the service test is `Some(true)` iff some class on the chain carries the Service tag; it is `None` iff none does and the chain ends at an unknown class; otherwise it is `Some(false)` |
| `Instance.ServiceInherited` | packages/lib-roblox/src/shared/instance.rs:122-131 | a subclass of a service is a service |
| `Fixture.ClassesListsTestClasses` | packages/lib-roblox/src/shared/instance.rs:140-178 | a well-founded database listing the test classes exists |
| `Fixture.IsAClassValid` | packages/lib-roblox/src/shared/instance.rs:141-150 | Part is a Part, BasePart, PVInstance and Instance; Workspace is a Workspace, Model and Instance |
| `Fixture.IsAClassInvalid` | packages/lib-roblox/src/shared/instance.rs:153-162 | Part is not "part", "Base-Part", Model or "Paart"; Workspace is not "Service", "." or "" |
| `Fixture.IsAServiceValid` | packages/lib-roblox/src/shared/instance.rs:165-170 | Workspace, PhysicsService, ReplicatedFirst and CSGDictionaryService are services |
| `Fixture.IsAServiceInvalid` | packages/lib-roblox/src/shared/instance.rs:173-178 | Camera and Terrain are not services; "Work-space" and "CSG Dictionary Service" give `None` |
| `Fixture.FindPropertyInfoPart` | packages/lib-roblox/src/shared/instance.rs:31-61 | on Part: its own enum property with its own default; an inherited enum property without a default; an inherited value property; misses give `None` |

Two behaviours of the source show up in the lemmas:

- The default value comes from the class that defines the property, not
  from the queried class. Creatable classes such as Part list defaults for
  inherited properties. Abstract ancestors such as BasePart list none. So
  a lookup of `Material` on Part reports no enum default, even though Part
  lists one. `Fixture.FindPropertyInfoPart` shows this.
- `class_is_a(c, "Instance")` is true for every name, even an unknown one.
  This is only consistent with ancestry when "Instance" is the root, which
  is why `Instance.IsATransitive` requires it.

## Left out

- The contents of the Roblox reflection database. They are generated data
  outside the repository. Every operation takes the database as a parameter
  instead of calling a global accessor.
- The internals of the DOM value and value-type types. Value types are
  opaque names. Default values tell apart only enum items (a `u32`).
  Property data types tell apart only enum, value and any other kind.
- Borrowing and string-conversion details. Every name is a plain `string`.
- The default value is returned by reference in the source and by value
  here.
- Instance.FindPropertyInfo, Instance.ClassIsA and Instance.ClassIsAService
  require a database with no superclass cycle (`WellFounded`). On a cyclic
  database the source's loops can run forever, or stop early when they
  meet the target class. The model does not capture those runs.
- The repository's documentation also describes child-process management,
  stream buffers and a task scheduler. No implementation of them is in the
  modelled file, so they are not modelled.
