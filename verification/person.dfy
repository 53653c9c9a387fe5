/** The test fixture `Person`: a record class with one derived field, `fullName`, and one
    ordinary method, and the record the tests build from it. */
module Person {
  import opened Results
  import opened Php
  import opened SimpleModel

  const PersonName: string := "Webbower\\SimpleData\\Test\\Person"

  /** What `$this->name` gives inside a Person method for a field Person has no getter
      for: the raw value, or `FieldNotFound`. */
  function ReadField(className: string, data: Payload, name: string): (r: Result<Value, Error>)
    ensures name in data ==> r == Success(data[name])
    ensures name !in data ==> r == Failure(FieldNotFound(name, className))
  {
    if name in data then Success(data[name]) else Failure(FieldNotFound(name, className))
  }

  /** `getFullName`: first name, a space, last name, each converted to string. A missing
      name fails the way a field read does, the first name being read first. */
  function GetFullName(className: string, data: Payload): (r: Result<Value, Error>)
    ensures "firstName" !in data ==> r == Failure(FieldNotFound("firstName", className))
    ensures "firstName" in data && "lastName" !in data ==>
      r == Failure(FieldNotFound("lastName", className))
    ensures "firstName" in data && "lastName" in data ==>
      var first, last := ToString(data["firstName"]), ToString(data["lastName"]);
      && r.Success? && r.value.Str?
      && |r.value.s| == |first| + 1 + |last|
      && r.value.s[..|first|] == first
      && r.value.s[|first|] == ' '
      && r.value.s[|first| + 1..] == last
  {
    var first :- ReadField(className, data, "firstName");
    var last :- ReadField(className, data, "lastName");
    Success(Str(ToString(first) + " " + ToString(last)))
  }

  /** `someMethod`: an ordinary method whose name does not make it a getter. */
  function SomeMethod(className: string, data: Payload): Result<Value, Error> {
    Success(Str("foo"))
  }

  /** Both methods are public. */
  const PersonClass: Class :=
    ClassDef(PersonName, map["getfullname" := MethodDef(Public, GetFullName),
                             "somemethod" := MethodDef(Public, SomeMethod)])

  /** The payload every test starts from. */
  const BobData: Payload := map[
    "firstName" := Str("Bob"),
    "lastName" := Str("Smith"),
    "age" := Int(32),
    "married" := Bool(false),
    "kids" := List([]),
    "house" := Null]

  const Bob: Model := New(PersonClass, BobData)

  /** `fullName` and its case variants resolve to `getFullName`; "firstName" and "lastName"
      have no getter. */
  lemma PersonGetters()
    ensures "get" + Fold("fullName") == "getfullname"
    ensures "get" + Fold("firstName") !in PersonClass.methods
    ensures "get" + Fold("lastName") !in PersonClass.methods
  {
    assert Fold("fullName") == "fullname";
    assert Fold("firstName") == "firstname";
    assert Fold("lastName") == "lastname";
    assert "getlastname"[3] != "getfullname"[3];
  }

  /** Inside `getFullName`, reading a field directly is the same as a full field read. */
  lemma ReadFieldIsGet(data: Payload, name: string)
    requires name == "firstName" || name == "lastName"
    ensures ReadField(PersonName, data, name) == Get(New(PersonClass, data), name)
  {
    PersonGetters();
    GetterNameFolds(name);
  }

  /** For any Person whose payload has string first and last names and no `fullName` key,
      `fullName` reads as the two names joined by a space. */
  lemma FullNameOfAnyPerson(data: Payload, first: string, last: string)
    requires "firstName" in data && data["firstName"] == Str(first)
    requires "lastName" in data && data["lastName"] == Str(last)
    requires "fullName" !in data
    ensures Get(New(PersonClass, data), "fullName") == Success(Str(first + " " + last))
  {
    PersonGetters();
    GetterNameFolds("fullName");
  }

  /** A Person missing its first name cannot compute `fullName`: the nested read fails. */
  lemma FullNameWithoutFirstName(data: Payload)
    requires "firstName" !in data && "fullName" !in data
    ensures Get(New(PersonClass, data), "fullName") == Failure(FieldNotFound("firstName", PersonName))
  {
    PersonGetters();
    GetterNameFolds("fullName");
  }

  // ----- The expected values of the test suite -----

  lemma RawReads()
    ensures Get(Bob, "firstName") == Success(Str("Bob"))
    ensures Get(Bob, "lastName") == Success(Str("Smith"))
    ensures Get(Bob, "age") == Success(Int(32))
    ensures Get(Bob, "married") == Success(Bool(false))
    ensures Get(Bob, "kids") == Success(List([]))
    ensures Get(Bob, "house") == Success(Null)
  {
  }

  lemma DerivedRead()
    ensures Get(Bob, "fullName") == Success(Str("Bob Smith"))
  {
    assert "fullName"[0] != "lastName"[0];
    assert "fullName" !in BobData;
    assert "firstName" in BobData && BobData["firstName"] == Str("Bob");
    assert "lastName" in BobData && BobData["lastName"] == Str("Smith");
    FullNameOfAnyPerson(BobData, "Bob", "Smith");
    assert Bob == New(PersonClass, BobData);
    assert "Bob" + " " + "Smith" == "Bob Smith";
  }

  /** Person's only getter key is eleven characters long, so a name of any length other
      than eight has no getter. */
  lemma NoGetterOfOtherLength(n: string)
    requires |n| != 8
    ensures !HasMethod(PersonClass, GetterName(n))
  {
    GetterIsNotBaseMethod(n);
    GetterNameFolds(n);
    var g := Fold(GetterName(n));
    assert |g| == |n| + 3 && g[0] == 'g';
    assert "somemethod"[0] != 'g';
  }

  lemma MissingFieldRead()
    ensures Get(Bob, "foo") == Failure(FieldNotFound("foo", PersonName))
    ensures Message(Get(Bob, "foo").error) == "Error getting data foo: does not exist on " + PersonName
  {
    assert "foo"[0] != "age"[0];
    assert "foo" !in BobData;
    NoGetterOfOtherLength("foo");
    MissingFieldMessage();
  }

  /** The message of the failed read of `foo`. */
  lemma MissingFieldMessage()
    ensures Message(FieldNotFound("foo", PersonName)) ==
      "Error getting data foo: does not exist on " + PersonName
  {
    assert "Error getting data " + "foo" == "Error getting data foo";
    assert "Error getting data foo" + ": does not exist on "
      == "Error getting data foo: does not exist on ";
  }

  /** An ordinary method's name is not a field name. */
  lemma PlainMethodRead()
    ensures Get(Bob, "someMethod") == Failure(FieldNotFound("someMethod", PersonName))
  {
    assert "someMethod" !in BobData;
    NoGetterOfOtherLength("someMethod");
  }

  lemma PlainMethodReadMessage()
    ensures Message(FieldNotFound("someMethod", PersonName)) ==
      "Error getting data someMethod: does not exist on " + PersonName
  {
    assert "Error getting data " + "someMethod" == "Error getting data someMethod";
    assert "Error getting data someMethod" + ": does not exist on "
      == "Error getting data someMethod: does not exist on ";
  }

  lemma WritesFail()
    ensures Set(Bob, "age", Int(33)) == Failure(ImmutableViolation(PersonName, Modify))
    ensures Message(Set(Bob, "age", Int(33)).error) ==
      "Cannot modify data properties on " + PersonName + " after instantiation"
    ensures Unset(Bob, "age") == Failure(ImmutableViolation(PersonName, Remove))
    ensures Message(Unset(Bob, "age").error) ==
      "Cannot unset data properties on " + PersonName + " after instantiation"
  {
  }

  lemma IssetAndHasProperty()
    ensures IsSet(Bob, "firstName") && IsSet(Bob, "lastName") && IsSet(Bob, "age")
    ensures IsSet(Bob, "married") && IsSet(Bob, "kids")
    ensures !IsSet(Bob, "house") && !IsSet(Bob, "foo")
    ensures HasProperty(Bob, "firstName") && HasProperty(Bob, "lastName") && HasProperty(Bob, "age")
    ensures HasProperty(Bob, "married") && HasProperty(Bob, "kids") && HasProperty(Bob, "house")
    ensures !HasProperty(Bob, "foo")
  {
  }

  /** `has` takes names literally: the getter and the ordinary method are there, the
      derived field's own name is not. */
  lemma HasNames()
    ensures !Has(Bob, "fullName")
    ensures Has(Bob, "getFullName") && Has(Bob, "someMethod") && Has(Bob, "toArray")
  {
    assert "fullName" !in BobData;
    FullNameIsNoMethod();
    PersonMethodNames();
  }

  /** No inherited or declared method name is eight characters long, as "fullName" is. */
  lemma FullNameIsNoMethod()
    ensures !HasMethod(PersonClass, "fullName")
  {
    assert |Fold("fullName")| == 8;
  }

  lemma PersonMethodNames()
    ensures HasMethod(PersonClass, "getFullName")
    ensures HasMethod(PersonClass, "someMethod")
    ensures HasMethod(PersonClass, "toArray")
  {
    assert Fold("getFullName") == "getfullname";
    assert Fold("someMethod") == "somemethod";
    assert Fold("toArray") == "toarray";
  }

  lemma Export()
    ensures ToArray(Bob) == BobData
  {
  }

  /** The overrides the copy test applies. */
  const Changes: Payload := map["age" := Int(35), "married" := Bool(true), "kids" := List([Str("Sally")])]

  lemma ScenarioKeysAreStrings()
    ensures NoIntegerKeys(BobData) && NoIntegerKeys(Changes)
  {
    forall k | k in BobData.Keys + Changes.Keys ensures !IsIntegerKey(k) {
      assert 'a' <= k[0] <= 'z';
    }
  }

  /** The copy carries the overridden values. */
  lemma CopyChangesValues()
    ensures NoIntegerKeys(BobData) && NoIntegerKeys(Changes)
    ensures Copy(Bob, Changes).cls == PersonClass
    ensures Get(Copy(Bob, Changes), "age") == Success(Int(35))
    ensures Get(Copy(Bob, Changes), "married") == Success(Bool(true))
    ensures Get(Copy(Bob, Changes), "kids") == Success(List([Str("Sally")]))
  {
    ScenarioKeysAreStrings();
  }

  /** The copy keeps the values it was not given. */
  lemma CopyKeepsValues()
    ensures NoIntegerKeys(BobData) && NoIntegerKeys(Changes)
    ensures Get(Copy(Bob, Changes), "firstName") == Success(Str("Bob"))
    ensures Get(Copy(Bob, Changes), "lastName") == Success(Str("Smith"))
    ensures Get(Copy(Bob, Changes), "house") == Success(Null)
  {
    ScenarioKeysAreStrings();
    RawReads();
    assert "firstName" !in Changes && "lastName" !in Changes;
    assert "house"[0] != "kids"[0];
    assert "house" !in Changes;
  }

  /** The copy is a different record, and the original still holds its own values. */
  lemma CopyLeavesOriginal()
    ensures NoIntegerKeys(BobData) && NoIntegerKeys(Changes)
    ensures Copy(Bob, Changes) != Bob
    ensures Get(Bob, "age") == Success(Int(32)) && Get(Bob, "married") == Success(Bool(false))
    ensures Get(Bob, "kids") == Success(List([]))
  {
    ScenarioKeysAreStrings();
    CopyChangesValues();
  }
}
