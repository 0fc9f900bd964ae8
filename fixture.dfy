/**
  A small reflection database holding the classes the unit tests of
  `shared/instance.rs` ask about, with their superclass links and Service
  tags as the Roblox class reference has them, and the answers those
  tests expect.
*/
module Fixture {
  import opened Reflection
  import opened Instance

  const NotCreatable := OtherTag("NotCreatable")

  function Class(superclass: string, tags: set<ClassTag>): ClassDescriptor
  {
    ClassDescriptor(Some(superclass), map[], map[], tags)
  }

  const InstanceClass := ClassDescriptor(None,
    map["Name" := PropertyDescriptor(Value(ValueType("String")))], map[], {NotCreatable})
  const PVInstanceClass := Class("Instance", {NotCreatable})
  const BasePartClass := ClassDescriptor(Some("PVInstance"),
    map["Anchored" := PropertyDescriptor(Value(ValueType("Bool"))),
        "Material" := PropertyDescriptor(Enum("Material"))],
    map[], {NotCreatable})
  const FormFactorPartClass := Class("BasePart", {NotCreatable})
  /** "Part" lists defaults for inherited properties too, as creatable classes do. */
  const PartClass := ClassDescriptor(Some("FormFactorPart"),
    map["Shape" := PropertyDescriptor(Enum("PartType"))],
    map["Shape" := EnumValue(1), "Material" := EnumValue(256),
        "Anchored" := OtherValue("false"), "Name" := OtherValue("Part")],
    {})
  const TerrainClass := Class("BasePart", {NotCreatable})
  const ModelClass := Class("PVInstance", {})
  const WorldRootClass := Class("Model", {NotCreatable})
  const WorkspaceClass := Class("WorldRoot", {NotCreatable, Service})
  const CameraClass := Class("Instance", {})
  const PhysicsServiceClass := Class("Instance", {NotCreatable, Service})
  const ReplicatedFirstClass := Class("Instance", {NotCreatable, Service})
  const FlyweightServiceClass := Class("Instance", {NotCreatable})
  const CSGDictionaryServiceClass := Class("FlyweightService", {NotCreatable, Service})

  const TestClassNames := {
    "Instance", "PVInstance", "BasePart", "FormFactorPart", "Part", "Terrain", "Model",
    "WorldRoot", "Workspace", "Camera", "PhysicsService", "ReplicatedFirst",
    "FlyweightService", "CSGDictionaryService"}

  /** `db` lists the classes the tests ask about as described above, and
      not the misspelt names the tests use as unknown classes. */
  ghost predicate ListsTestClasses(db: Database)
  {
    && "Instance" in db && db["Instance"] == InstanceClass
    && "PVInstance" in db && db["PVInstance"] == PVInstanceClass
    && "BasePart" in db && db["BasePart"] == BasePartClass
    && "FormFactorPart" in db && db["FormFactorPart"] == FormFactorPartClass
    && "Part" in db && db["Part"] == PartClass
    && "Terrain" in db && db["Terrain"] == TerrainClass
    && "Model" in db && db["Model"] == ModelClass
    && "WorldRoot" in db && db["WorldRoot"] == WorldRootClass
    && "Workspace" in db && db["Workspace"] == WorkspaceClass
    && "Camera" in db && db["Camera"] == CameraClass
    && "PhysicsService" in db && db["PhysicsService"] == PhysicsServiceClass
    && "ReplicatedFirst" in db && db["ReplicatedFirst"] == ReplicatedFirstClass
    && "FlyweightService" in db && db["FlyweightService"] == FlyweightServiceClass
    && "CSGDictionaryService" in db && db["CSGDictionaryService"] == CSGDictionaryServiceClass
    && "Work-space" !in db && "CSG Dictionary Service" !in db
  }

  /** A database holding exactly the test classes has no superclass cycle. */
  lemma TestClassesWellFounded(db: Database)
    requires ListsTestClasses(db) && db.Keys == TestClassNames
    ensures WellFounded(db)
  {
    forall name | name in db ensures WalkEnds(db, name, 4) {
      assert name in TestClassNames;
    }
    WellFoundedIfWalksEnd(db, 4);
  }

  /** The smallest such database. */
  function Classes(): Database
  {
    map[
      "Instance" := InstanceClass,
      "PVInstance" := PVInstanceClass,
      "BasePart" := BasePartClass,
      "FormFactorPart" := FormFactorPartClass,
      "Part" := PartClass,
      "Terrain" := TerrainClass,
      "Model" := ModelClass,
      "WorldRoot" := WorldRootClass,
      "Workspace" := WorkspaceClass,
      "Camera" := CameraClass,
      "PhysicsService" := PhysicsServiceClass,
      "ReplicatedFirst" := ReplicatedFirstClass,
      "FlyweightService" := FlyweightServiceClass,
      "CSGDictionaryService" := CSGDictionaryServiceClass
    ]
  }

  lemma PartLookups()
    ensures "Part" in Classes() && Classes()["Part"] == PartClass
    ensures "FormFactorPart" in Classes() && Classes()["FormFactorPart"] == FormFactorPartClass
    ensures "BasePart" in Classes() && Classes()["BasePart"] == BasePartClass
  {
  }

  lemma RootLookups()
    ensures "PVInstance" in Classes() && Classes()["PVInstance"] == PVInstanceClass
    ensures "Instance" in Classes() && Classes()["Instance"] == InstanceClass
    ensures "Terrain" in Classes() && Classes()["Terrain"] == TerrainClass
  {
  }

  lemma WorkspaceLookups()
    ensures "Workspace" in Classes() && Classes()["Workspace"] == WorkspaceClass
    ensures "WorldRoot" in Classes() && Classes()["WorldRoot"] == WorldRootClass
    ensures "Model" in Classes() && Classes()["Model"] == ModelClass
    ensures "Camera" in Classes() && Classes()["Camera"] == CameraClass
  {
  }

  lemma ServiceLookups()
    ensures "PhysicsService" in Classes() && Classes()["PhysicsService"] == PhysicsServiceClass
    ensures "ReplicatedFirst" in Classes() && Classes()["ReplicatedFirst"] == ReplicatedFirstClass
    ensures "FlyweightService" in Classes() && Classes()["FlyweightService"] == FlyweightServiceClass
    ensures "CSGDictionaryService" in Classes() && Classes()["CSGDictionaryService"] == CSGDictionaryServiceClass
  {
  }

  lemma UnknownLookups()
    ensures "Work-space" !in Classes() && "CSG Dictionary Service" !in Classes()
    ensures Classes().Keys == TestClassNames
  {
  }

  /** The test classes can be listed by a well-founded database. */
  lemma ClassesListsTestClasses()
    ensures ListsTestClasses(Classes()) && WellFounded(Classes())
  {
    PartLookups();
    RootLookups();
    WorkspaceLookups();
    ServiceLookups();
    UnknownLookups();
    TestClassesWellFounded(Classes());
  }

  lemma PVInstanceChain(db: Database)
    requires WellFounded(db) && ListsTestClasses(db)
    ensures Chain(db, "PVInstance") == ["PVInstance", "Instance"]
  {
    assert Chain(db, "Instance") == ["Instance"];
    assert Chain(db, "PVInstance") == ["PVInstance"] + Chain(db, "Instance");
  }

  lemma BasePartChain(db: Database)
    requires WellFounded(db) && ListsTestClasses(db)
    ensures Chain(db, "BasePart") == ["BasePart", "PVInstance", "Instance"]
  {
    PVInstanceChain(db);
    assert Chain(db, "BasePart") == ["BasePart"] + Chain(db, "PVInstance");
  }

  lemma PartChain(db: Database)
    requires WellFounded(db) && ListsTestClasses(db)
    ensures Chain(db, "Part") == ["Part", "FormFactorPart", "BasePart", "PVInstance", "Instance"]
  {
    BasePartChain(db);
    assert Chain(db, "FormFactorPart") == ["FormFactorPart"] + Chain(db, "BasePart");
    assert Chain(db, "Part") == ["Part"] + Chain(db, "FormFactorPart");
  }

  lemma ModelChain(db: Database)
    requires WellFounded(db) && ListsTestClasses(db)
    ensures Chain(db, "Model") == ["Model", "PVInstance", "Instance"]
  {
    PVInstanceChain(db);
    assert Chain(db, "Model") == ["Model"] + Chain(db, "PVInstance");
  }

  lemma WorkspaceChain(db: Database)
    requires WellFounded(db) && ListsTestClasses(db)
    ensures Chain(db, "Workspace") == ["Workspace", "WorldRoot", "Model", "PVInstance", "Instance"]
  {
    ModelChain(db);
    assert Chain(db, "WorldRoot") == ["WorldRoot"] + Chain(db, "Model");
    assert Chain(db, "Workspace") == ["Workspace"] + Chain(db, "WorldRoot");
  }

  /** Classes are what they derive from, all the way up to "Instance". */
  lemma IsAClassValid(db: Database)
    requires WellFounded(db) && ListsTestClasses(db)
    ensures IsA(db, "Part", "Part") == Some(true)
    ensures IsA(db, "Part", "BasePart") == Some(true)
    ensures IsA(db, "Part", "PVInstance") == Some(true)
    ensures IsA(db, "Part", "Instance") == Some(true)
    ensures IsA(db, "Workspace", "Workspace") == Some(true)
    ensures IsA(db, "Workspace", "Model") == Some(true)
    ensures IsA(db, "Workspace", "Instance") == Some(true)
  {
    PartChain(db);
    WorkspaceChain(db);
    IsAChain(db, "Part", "BasePart");
    IsAChain(db, "Part", "PVInstance");
    IsAChain(db, "Workspace", "Model");
  }

  /** Names off the chain, near misses included, are not ancestors. */
  lemma IsAClassInvalid(db: Database)
    requires WellFounded(db) && ListsTestClasses(db)
    ensures IsA(db, "Part", "part") == Some(false)
    ensures IsA(db, "Part", "Base-Part") == Some(false)
    ensures IsA(db, "Part", "Model") == Some(false)
    ensures IsA(db, "Part", "Paart") == Some(false)
    ensures IsA(db, "Workspace", "Service") == Some(false)
    ensures IsA(db, "Workspace", ".") == Some(false)
    ensures IsA(db, "Workspace", "") == Some(false)
  {
    IsAClassInvalidPart(db);
    IsAClassInvalidWorkspace(db);
  }

  lemma IsAClassInvalidPart(db: Database)
    requires WellFounded(db) && ListsTestClasses(db)
    ensures IsA(db, "Part", "part") == Some(false)
    ensures IsA(db, "Part", "Base-Part") == Some(false)
    ensures IsA(db, "Part", "Model") == Some(false)
    ensures IsA(db, "Part", "Paart") == Some(false)
  {
    PartChain(db);
    IsAChain(db, "Part", "part");
    IsAChain(db, "Part", "Base-Part");
    IsAChain(db, "Part", "Model");
    IsAChain(db, "Part", "Paart");
  }

  lemma IsAClassInvalidWorkspace(db: Database)
    requires WellFounded(db) && ListsTestClasses(db)
    ensures IsA(db, "Workspace", "Service") == Some(false)
    ensures IsA(db, "Workspace", ".") == Some(false)
    ensures IsA(db, "Workspace", "") == Some(false)
  {
    WorkspaceChain(db);
    IsAChain(db, "Workspace", "Service");
    IsAChain(db, "Workspace", ".");
    IsAChain(db, "Workspace", "");
  }

  lemma IsAServiceValid(db: Database)
    requires WellFounded(db) && ListsTestClasses(db)
    ensures IsAService(db, "Workspace") == Some(true)
    ensures IsAService(db, "PhysicsService") == Some(true)
    ensures IsAService(db, "ReplicatedFirst") == Some(true)
    ensures IsAService(db, "CSGDictionaryService") == Some(true)
  {
  }

  /** Ordinary classes are not services; unknown names give no answer. */
  lemma IsAServiceInvalid(db: Database)
    requires WellFounded(db) && ListsTestClasses(db)
    ensures IsAService(db, "Camera") == Some(false)
    ensures IsAService(db, "Terrain") == Some(false)
    ensures IsAService(db, "Work-space") == None
    ensures IsAService(db, "CSG Dictionary Service") == None
  {
    assert IsAService(db, "Instance") == Some(false);
    assert IsAService(db, "PVInstance") == Some(false);
    assert IsAService(db, "BasePart") == Some(false);
  }

  /**
    Property lookups on "Part": its own enum property with its own enum
    default; an inherited enum property whose default is looked up in the
    defining "BasePart" and so is absent, though "Part" lists one; an
    inherited value property; and misses.
  */
  lemma FindPropertyInfoPart(db: Database)
    requires WellFounded(db) && ListsTestClasses(db)
    ensures PropertyLookup(db, "Part", "Shape") ==
              Some(PropertyInfo(Some("PartType"), Some(1), None, None))
    ensures PropertyLookup(db, "Part", "Material") ==
              Some(PropertyInfo(Some("Material"), None, None, None))
    ensures PropertyLookup(db, "Part", "Name") ==
              Some(PropertyInfo(None, None, Some(ValueType("String")), None))
    ensures PropertyLookup(db, "Part", "Color") == None
    ensures PropertyLookup(db, "Work-space", "Name") == None
  {
    assert PropertyLookup(db, "Instance", "Color") == None;
    assert PropertyLookup(db, "PVInstance", "Color") == None;
    assert PropertyLookup(db, "BasePart", "Color") == None;
    assert PropertyLookup(db, "FormFactorPart", "Color") == None;
    assert PropertyLookup(db, "PVInstance", "Name") == PropertyLookup(db, "Instance", "Name");
    assert PropertyLookup(db, "BasePart", "Name") == PropertyLookup(db, "PVInstance", "Name");
    assert PropertyLookup(db, "FormFactorPart", "Name") == PropertyLookup(db, "BasePart", "Name");
    assert PropertyLookup(db, "FormFactorPart", "Material") == PropertyLookup(db, "BasePart", "Material");
  }
}
