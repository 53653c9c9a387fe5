/** The immutable record base class `SimpleModel`: a payload fixed at construction, read
    through a three-step field resolution (raw key, then a `get…` method, then failure),
    existence checks, blocked writes, export, and copy-with-overrides. */
module SimpleModel {
  import opened Results
  import opened Php

  /** The raw data a record holds, keyed by field name. */
  type Payload = map<string, Value>

  /** A method of a concrete record class, as seen when it is called with no arguments:
      it reads the class name and the payload and may itself fail (a nested field read). */
  type Method = (string, Payload) -> Result<Value, Error>

  /** PHP method visibility. */
  datatype Visibility = Public | Protected | Private

  /** A method a concrete class declares: its visibility and what calling it computes. */
  datatype MethodDef = MethodDef(visibility: Visibility, body: Method)

  /** A concrete record class: its fully qualified name and the methods it declares, keyed
      by their ASCII lower-cased names, the way PHP keeps a class's method table. */
  datatype ClassDef = ClassDef(name: string, methods: map<string, MethodDef>)

  /** Every key of the method table is already lower-cased. */
  predicate ValidClass(c: ClassDef) {
    forall k | k in c.methods :: Fold(k) == k
  }

  /** A class whose method table is keyed the way PHP keys it. */
  type Class = c: ClassDef | ValidClass(c) witness ClassDef("", map[])

  /** The fully qualified name of the base class, the calling scope of its magic methods. */
  const BaseClassName: string := "Webbower\\SimpleModel\\SimpleModel"

  /** The lower-cased names of the methods every record inherits from the base class. */
  const BaseMethods: set<string> :=
    {"__construct", "__get", "__set", "__isset", "__unset",
     "toarray", "has", "hasproperty", "hasmethod", "copy"}

  /** The entries of `BaseMethods` fold to themselves. */
  lemma BaseMethodsFolded()
    ensures forall k | k in BaseMethods :: Fold(k) == k
  {
    assert Fold("__construct") == "__construct";
    assert Fold("__get") == "__get";
    assert Fold("__set") == "__set";
    assert Fold("__isset") == "__isset";
    assert Fold("__unset") == "__unset";
    assert Fold("toarray") == "toarray";
    assert Fold("has") == "has";
    assert Fold("hasproperty") == "hasproperty";
    assert Fold("hasmethod") == "hasmethod";
    assert Fold("copy") == "copy";
  }

  /** The two blocked mutations. */
  datatype MutationKind = Modify | Remove

  /** The first two are thrown as `OutOfBoundsException`; the third is the `Error` PHP
      raises when the base class calls a getter the concrete class declared private. The
      datatype keeps what each message carries. */
  datatype Error =
    | FieldNotFound(field: string, className: string)
    | ImmutableViolation(className: string, kind: MutationKind)
    | PrivateMethodCall(getter: string, className: string)

  /** The fixed parts of the messages. */
  const FieldLead: string := "Error getting data "
  const FieldMid: string := ": does not exist on "
  const ModifyLead: string := "Cannot modify data properties on "
  const UnsetLead: string := "Cannot unset data properties on "
  const MutationTail: string := " after instantiation"
  const PrivateLead: string := "Call to private method "
  const PrivateSep: string := "::"
  const PrivateScope: string := "() from scope "

  /** Where each part of a three-part concatenation sits. */
  lemma MiddleOfConcat(a: string, b: string, c: string)
    ensures (a + b + c)[..|a|] == a
    ensures (a + b + c)[|a|..|a| + |b|] == b
    ensures (a + b + c)[|a| + |b|..] == c
  {
    assert (a + b + c)[..|a|] == (a + b)[..|a|];
    assert (a + b + c)[|a|..|a| + |b|] == (a + b)[|a|..];
  }

  /** Layout of a failed-read message. */
  lemma FieldMessageLayout(f: string, c: string)
    ensures var msg, i, j := FieldLead + f + FieldMid + c, |FieldLead|, |FieldLead| + |f| + |FieldMid|;
      && |msg| == j + |c|
      && msg[..i] == FieldLead && msg[i..i + |f|] == f
      && msg[i + |f|..j] == FieldMid && msg[j..] == c
  {
    MiddleOfConcat(FieldLead, f, FieldMid + c);
    MiddleOfConcat(FieldLead + f, FieldMid, c);
    assert FieldLead + f + FieldMid + c == FieldLead + f + (FieldMid + c);
  }

  /** Layout of a blocked-mutation message with lead `lead`. */
  lemma MutationMessageLayout(lead: string, c: string)
    ensures var msg := lead + c + MutationTail;
      && |msg| == |lead| + |c| + |MutationTail|
      && msg[..|lead|] == lead && msg[|lead|..|lead| + |c|] == c
      && msg[|lead| + |c|..] == MutationTail
  {
    MiddleOfConcat(lead, c, MutationTail);
  }

  /** A slice inside the left part of a concatenation is a slice of that part. */
  lemma SliceInLeft(x: string, y: string, i: int, j: int)
    requires 0 <= i <= j <= |x|
    ensures (x + y)[i..j] == x[i..j]
  {
  }

  /** A slice inside the right part of a concatenation is a slice of that part. */
  lemma SliceInRight(x: string, y: string, i: int, j: int)
    requires |x| <= i <= j <= |x| + |y|
    ensures (x + y)[i..j] == y[i - |x|..j - |x|]
  {
  }

  /** Where each part of a six-part concatenation sits. */
  lemma SixParts(a: string, b: string, c: string, d: string, e: string, f: string)
    ensures var s, i, j, k, l, m := a + b + c + d + e + f, |a|, |a| + |b|, |a| + |b| + |c|,
                                    |a| + |b| + |c| + |d|, |a| + |b| + |c| + |d| + |e|;
      && |s| == m + |f|
      && s[..i] == a && s[i..j] == b && s[j..k] == c
      && s[k..l] == d && s[l..m] == e && s[m..] == f
  {
    var x, y := a + b + c, d + e + f;
    var s := a + b + c + d + e + f;
    assert s == x + y;
    MiddleOfConcat(a, b, c);
    MiddleOfConcat(d, e, f);
    SliceInLeft(x, y, 0, |a|);
    SliceInLeft(x, y, |a|, |a| + |b|);
    SliceInLeft(x, y, |a| + |b|, |x|);
    SliceInRight(x, y, |x|, |x| + |d|);
    SliceInRight(x, y, |x| + |d|, |x| + |d| + |e|);
    SliceInRight(x, y, |x| + |d| + |e|, |s|);
  }

  /** The message each error is raised with: the fixed texts of its kind, in order, with the
      field, the class or the getter between them. */
  function Message(e: Error): (msg: string)
    ensures e.FieldNotFound? ==>
      var i, j := |FieldLead|, |FieldLead| + |e.field| + |FieldMid|;
      && |msg| == j + |e.className|
      && msg[..i] == FieldLead && msg[i..i + |e.field|] == e.field
      && msg[i + |e.field|..j] == FieldMid && msg[j..] == e.className
    ensures e.ImmutableViolation? && e.kind == Modify ==>
      var i := |ModifyLead|;
      && |msg| == i + |e.className| + |MutationTail|
      && msg[..i] == ModifyLead && msg[i..i + |e.className|] == e.className
      && msg[i + |e.className|..] == MutationTail
    ensures e.ImmutableViolation? && e.kind == Remove ==>
      var i := |UnsetLead|;
      && |msg| == i + |e.className| + |MutationTail|
      && msg[..i] == UnsetLead && msg[i..i + |e.className|] == e.className
      && msg[i + |e.className|..] == MutationTail
    ensures e.PrivateMethodCall? ==>
      var i := |PrivateLead|;
      var g := i + |e.className| + |PrivateSep|;
      var s := g + |e.getter| + |PrivateScope|;
      && |msg| == s + |BaseClassName|
      && msg[..i] == PrivateLead && msg[i..i + |e.className|] == e.className
      && msg[i + |e.className|..g] == PrivateSep && msg[g..g + |e.getter|] == e.getter
      && msg[g + |e.getter|..s] == PrivateScope && msg[s..] == BaseClassName
  {
    match e
    case FieldNotFound(f, c) =>
      FieldMessageLayout(f, c);
      FieldLead + f + FieldMid + c
    case ImmutableViolation(c, Modify) =>
      MutationMessageLayout(ModifyLead, c);
      ModifyLead + c + MutationTail
    case ImmutableViolation(c, Remove) =>
      MutationMessageLayout(UnsetLead, c);
      UnsetLead + c + MutationTail
    case PrivateMethodCall(f, c) =>
      SixParts(PrivateLead, c, PrivateSep, f, PrivateScope, BaseClassName);
      PrivateLead + c + PrivateSep + f + PrivateScope + BaseClassName
  }

  /** The message of a blocked mutation tells which mutation and which class it was. */
  lemma ViolationMessageIdentifies(a: Error, b: Error)
    requires a.ImmutableViolation? && b.ImmutableViolation? && Message(a) == Message(b)
    ensures a == b
  {
    assert ModifyLead[7] != UnsetLead[7];
    assert |a.className| == |b.className|;
  }

  /** A record: the class it was constructed as and the payload it was given. */
  datatype Model = Model(cls: Class, data: Payload)

  function ClassName(m: Model): string {
    m.cls.name
  }

  /** Construction stores the payload as given, with no validation, and records the class. */
  function New(cls: Class, data: Payload): (m: Model)
    ensures m.cls == cls
    ensures ToArray(m) == data && ClassName(m) == cls.name
    ensures forall name :: HasMethod(m.cls, name) == HasMethod(cls, name)
  {
    Model(cls, data)
  }

  /** True iff `name` is a raw payload key, whatever (even null) it maps to. */
  predicate HasProperty(m: Model, name: string)
    ensures HasProperty(m, name) <==> name in m.data.Keys
  {
    name in m.data
  }

  /** True iff the class has a method called `name`, compared case-insensitively;
      inherited base-class methods count. */
  predicate HasMethod(c: Class, name: string)
    ensures HasMethod(c, name) <==>
      exists k | k in BaseMethods || k in c.methods :: Fold(k) == Fold(name)
  {
    FoldIdempotent(name);
    BaseMethodsFolded();
    Fold(name) in BaseMethods || Fold(name) in c.methods
  }

  /** True iff `name` is a raw payload key or a method name, taken literally: the name of
      a derived field (as opposed to its getter) is not recognised. */
  predicate Has(m: Model, name: string)
    ensures Has(m, name) <==>
      name in m.data || exists k | k in BaseMethods || k in m.cls.methods :: Fold(k) == Fold(name)
  {
    HasProperty(m, name) || HasMethod(m.cls, name)
  }

  /** The name of the method that backs the derived field `name`. */
  function GetterName(name: string): (g: string)
    ensures |g| == |name| + 3 && g[..3] == "get"
    ensures name != [] ==> g[4..] == name[1..]
    ensures name != [] ==> !('a' <= g[3] <= 'z') && LowerChar(g[3]) == LowerChar(name[0])
  {
    "get" + UcFirst(name)
  }

  /** Up to case, the getter of `name` is "get" followed by `name`. */
  lemma GetterNameFolds(name: string)
    ensures Fold(GetterName(name)) == "get" + Fold(name)
  {
    FoldAppend("get", UcFirst(name));
    FoldUcFirst(name);
    assert Fold("get") == "get";
  }

  /** No getter name is one of the base class's own methods. */
  lemma GetterIsNotBaseMethod(name: string)
    ensures Fold(GetterName(name)) !in BaseMethods
  {
    GetterNameFolds(name);
    var g := Fold(GetterName(name));
    assert g[0] == 'g';
    forall b | b in BaseMethods ensures b != g {
      assert b[0] != 'g';
    }
  }

  /** Field read: a raw payload key wins; otherwise the class's `get` + ucfirst(name)
      method is called, which fails if the class declared it private; otherwise the read
      fails with `FieldNotFound` naming the field and the class. */
  function Get(m: Model, name: string): (r: Result<Value, Error>)
    ensures HasProperty(m, name) ==> r == Success(m.data[name])
    ensures !HasProperty(m, name) && HasMethod(m.cls, GetterName(name)) ==>
      && "get" + Fold(name) in m.cls.methods
      && (m.cls.methods["get" + Fold(name)].visibility == Private ==>
            r == Failure(PrivateMethodCall(GetterName(name), m.cls.name)))
      && (m.cls.methods["get" + Fold(name)].visibility != Private ==>
            r == m.cls.methods["get" + Fold(name)].body(m.cls.name, m.data))
    ensures !HasProperty(m, name) && !HasMethod(m.cls, GetterName(name)) ==>
      r == Failure(FieldNotFound(name, m.cls.name))
  {
    var getter := GetterName(name);
    if HasProperty(m, name) then
      Success(m.data[name])
    else if HasMethod(m.cls, getter) then
      GetterIsNotBaseMethod(name);
      GetterNameFolds(name);
      var def := m.cls.methods[Fold(getter)];
      if def.visibility == Private then Failure(PrivateMethodCall(getter, m.cls.name))
      else def.body(m.cls.name, m.data)
    else
      Failure(FieldNotFound(name, m.cls.name))
  }

  /** Field write: always refused, whatever the name and value; no new state exists. */
  function Set(m: Model, name: string, value: Value): (r: Result<Model, Error>)
    ensures r == Failure(ImmutableViolation(ClassName(m), Modify))
  {
    Failure(ImmutableViolation(m.cls.name, Modify))
  }

  /** Field removal: always refused, whatever the name; no new state exists. */
  function Unset(m: Model, name: string): (r: Result<Model, Error>)
    ensures r == Failure(ImmutableViolation(ClassName(m), Remove))
  {
    Failure(ImmutableViolation(m.cls.name, Remove))
  }

  /** `isset`: the name is a raw payload key whose value is not null. */
  predicate IsSet(m: Model, name: string)
    ensures IsSet(m, name) <==> name in m.data && m.data[name] != Null
  {
    HasProperty(m, name) && Get(m, name) != Success(Null)
  }

  /** The names inside the class body that denote the base class's own protected
      properties, `$class` and `$data`, rather than payload fields. */
  const ProtectedFields: set<string> := {"class", "data"}

  /** `isset` as the code evaluates it: `$this->$name` is read from inside the class, where
      "class" and "data" resolve to the protected properties, which are never null. */
  predicate IsSetAsWritten(m: Model, name: string)
    ensures IsSetAsWritten(m, name) <==>
      name in m.data && (name in ProtectedFields || m.data[name] != Null)
  {
    HasProperty(m, name) && (name in ProtectedFields || Get(m, name) != Success(Null))
  }

  /** Export: exactly the raw keys and values, with nothing derived added. */
  function ToArray(m: Model): (r: Payload)
    ensures forall k :: k in r <==> HasProperty(m, k)
    ensures forall k | k in r :: Get(m, k) == Success(r[k])
  {
    m.data
  }

  /** True when no payload key is one PHP would store as an integer. */
  predicate NoIntegerKeys(d: Payload) {
    forall k | k in d :: !IsIntegerKey(k)
  }

  /** Copy-with-overrides: a new record of the same class whose payload is the original's
      merged with `overrides`, the overrides winning on a shared key. */
  function Copy(m: Model, overrides: Payload): (r: Model)
    requires NoIntegerKeys(m.data) && NoIntegerKeys(overrides)
    ensures r.cls == m.cls && NoIntegerKeys(r.data)
    ensures forall k :: HasProperty(r, k) <==> HasProperty(m, k) || k in overrides
    ensures forall k | k in overrides :: Get(r, k) == Success(overrides[k])
    ensures forall k | HasProperty(m, k) && k !in overrides :: Get(r, k) == Get(m, k)
  {
    New(m.cls, m.data + overrides)
  }

  // ----- Properties of the model -----

  /** Export and construction are inverse: rebuilding from the export gives the record back. */
  lemma ExportRebuilds(m: Model)
    ensures New(m.cls, ToArray(m)) == m
  {
  }

  /** A stored null is present but not set, and it reads back as null. */
  lemma NullIsPresentButNotSet(m: Model, k: string)
    requires k in ToArray(m) && ToArray(m)[k] == Null
    ensures HasProperty(m, k) && !IsSet(m, k) && Get(m, k) == Success(Null)
  {
  }

  /** A name with no payload key is never set, even when a derived getter backs it. */
  lemma DerivedOnlyIsNotSet(m: Model, d: string)
    requires !HasProperty(m, d)
    ensures !IsSet(m, d)
  {
  }

  /** Derived fields resolve case-insensitively: two names equal up to ASCII case and absent
      from the payload find the same getter. When it is not private they read the same
      value; when it is private each read fails naming the getter as called; with no
      getter each fails naming its own field. */
  lemma DerivedLookupIgnoresCase(m: Model, a: string, b: string)
    requires !HasProperty(m, a) && !HasProperty(m, b) && Fold(a) == Fold(b)
    ensures HasMethod(m.cls, GetterName(a)) <==> HasMethod(m.cls, GetterName(b))
    ensures HasMethod(m.cls, GetterName(a)) ==> "get" + Fold(a) in m.cls.methods
    ensures HasMethod(m.cls, GetterName(a)) && m.cls.methods["get" + Fold(a)].visibility != Private ==>
      Get(m, a) == Get(m, b)
    ensures HasMethod(m.cls, GetterName(a)) && m.cls.methods["get" + Fold(a)].visibility == Private ==>
      Get(m, a) == Failure(PrivateMethodCall(GetterName(a), ClassName(m))) &&
      Get(m, b) == Failure(PrivateMethodCall(GetterName(b), ClassName(m)))
    ensures !HasMethod(m.cls, GetterName(a)) ==>
      Get(m, a) == Failure(FieldNotFound(a, ClassName(m))) &&
      Get(m, b) == Failure(FieldNotFound(b, ClassName(m)))
  {
    GetterNameFolds(a);
    GetterNameFolds(b);
    GetterIsNotBaseMethod(a);
  }

  /** A method whose name does not start a getter is not a field: `has` sees it, a read fails. */
  lemma PlainMethodIsNotAField(m: Model, n: string)
    requires !HasProperty(m, n) && HasMethod(m.cls, n) && !HasMethod(m.cls, GetterName(n))
    ensures Has(m, n)
    ensures Get(m, n) == Failure(FieldNotFound(n, ClassName(m)))
  {
  }

  /** A getter the class declared private is seen by `has` and `hasMethod`, yet reading the
      field it backs fails: the base class may not call it. */
  lemma PrivateGetterIsSeenButFails(m: Model, d: string)
    requires !HasProperty(m, d)
    requires "get" + Fold(d) in m.cls.methods && m.cls.methods["get" + Fold(d)].visibility == Private
    ensures Has(m, GetterName(d)) && HasMethod(m.cls, GetterName(d))
    ensures Get(m, d) == Failure(PrivateMethodCall(GetterName(d), ClassName(m)))
  {
    GetterNameFolds(d);
  }

  /** Every name a read resolves is backed by something `has` sees: the name itself, or the
      getter named after it. */
  lemma ReadableNameIsBacked(m: Model, n: string)
    requires Get(m, n).Success?
    ensures Has(m, n) || Has(m, GetterName(n))
  {
  }

  /** Method lookup ignores ASCII case, for `hasMethod` and for `has`. */
  lemma HasMethodIgnoresCase(m: Model, a: string, b: string)
    requires Fold(a) == Fold(b)
    ensures HasMethod(m.cls, a) <==> HasMethod(m.cls, b)
    ensures !HasProperty(m, a) && !HasProperty(m, b) ==> (Has(m, a) <==> Has(m, b))
  {
  }

  /** Every method a valid class declares is found under its own name. */
  lemma DeclaredMethodIsFound(c: Class, k: string)
    requires k in c.methods
    ensures HasMethod(c, k)
  {
  }

  /** Every record answers `has` for the base class's own methods, in any letter case. */
  lemma HasBaseMethods(m: Model, n: string)
    requires Fold(n) in BaseMethods
    ensures Has(m, n)
  {
  }

  /** Outside the two protected names, `isset` as written agrees with its documented meaning. */
  lemma IsSetAsWrittenElsewhere(m: Model, n: string)
    requires n !in ProtectedFields
    ensures IsSetAsWritten(m, n) <==> IsSet(m, n)
  {
  }

  /** The discrepancy: a payload whose "data" key holds null is reported as set. */
  lemma IsSetAsWrittenNullData(cls: Class)
    ensures IsSetAsWritten(Model(cls, map["data" := Null]), "data")
    ensures !IsSet(Model(cls, map["data" := Null]), "data")
  {
  }

  // ----- Mutation attempts -----

  /** A statement that tries to change a record in place. */
  datatype Attempt = Assign(name: string, value: Value) | Delete(name: string)

  function Try(m: Model, a: Attempt): Result<Model, Error> {
    match a
    case Assign(n, v) => Set(m, n, v)
    case Delete(n) => Unset(m, n)
  }

  function KindOf(a: Attempt): MutationKind {
    match a
    case Assign(_, _) => Modify
    case Delete(_) => Remove
  }

  /** Runs the attempts in order, each on the state the previous ones left (a successful
      one would replace it), and collects the errors raised. */
  function RunAttempts(m: Model, attempts: seq<Attempt>): (Model, seq<Error>)
    decreases |attempts|
  {
    if attempts == [] then (m, [])
    else
      var r := Try(m, attempts[0]);
      var next := if r.Success? then r.value else m;
      var (last, errs) := RunAttempts(next, attempts[1..]);
      (last, (if r.Failure? then [r.error] else []) + errs)
  }

  /** No sequence of writes and removals changes a record: each one raises the matching
      `ImmutableViolation`, and the export afterwards is the export before. */
  lemma {:induction false} AttemptsChangeNothing(m: Model, attempts: seq<Attempt>)
    ensures RunAttempts(m, attempts).0 == m
    ensures ToArray(RunAttempts(m, attempts).0) == ToArray(m)
    ensures |RunAttempts(m, attempts).1| == |attempts|
    ensures forall i | 0 <= i < |attempts| ::
      RunAttempts(m, attempts).1[i] == ImmutableViolation(ClassName(m), KindOf(attempts[i]))
  {
    if attempts != [] {
      AttemptsChangeNothing(m, attempts[1..]);
      var errs := RunAttempts(m, attempts).1;
      var rest := RunAttempts(m, attempts[1..]).1;
      assert errs == [ImmutableViolation(ClassName(m), KindOf(attempts[0]))] + rest;
      forall i | 0 <= i < |attempts|
        ensures errs[i] == ImmutableViolation(ClassName(m), KindOf(attempts[i]))
      {
        if i > 0 {
          assert errs[i] == rest[i - 1];
          assert attempts[1..][i - 1] == attempts[i];
        }
      }
    }
  }

  // ----- Copy -----

  /** Copying with no overrides gives the same record. */
  lemma CopyNothing(m: Model)
    requires NoIntegerKeys(m.data)
    ensures Copy(m, map[]) == m
  {
    assert m.data + map[] == m.data;
  }

  /** Copying with the record's own export gives the same record. */
  lemma CopyOwnExport(m: Model)
    requires NoIntegerKeys(m.data)
    ensures Copy(m, ToArray(m)) == m
  {
    assert m.data + m.data == m.data;
  }

  /** Two copies in a row are one copy with the merged overrides. */
  lemma CopyTwice(m: Model, a: Payload, b: Payload)
    requires NoIntegerKeys(m.data) && NoIntegerKeys(a) && NoIntegerKeys(b)
    ensures NoIntegerKeys(a + b)
    ensures Copy(Copy(m, a), b) == Copy(m, a + b)
  {
    assert (m.data + a) + b == m.data + (a + b);
  }

  /** Copying twice with the same overrides is copying once. */
  lemma CopyIdempotent(m: Model, o: Payload)
    requires NoIntegerKeys(m.data) && NoIntegerKeys(o)
    ensures Copy(Copy(m, o), o) == Copy(m, o)
  {
    CopyTwice(m, o, o);
    assert o + o == o;
  }

  /** The copy's derived fields are computed afresh over the merged payload. */
  lemma CopyRecomputesDerived(m: Model, o: Payload, d: string)
    requires NoIntegerKeys(m.data) && NoIntegerKeys(o)
    requires !HasProperty(m, d) && d !in o && HasMethod(m.cls, GetterName(d))
    ensures Get(Copy(m, o), d) == Get(Model(m.cls, m.data + o), d)
    ensures m.cls.methods["get" + Fold(d)].visibility != Private ==>
      Get(Copy(m, o), d) == m.cls.methods["get" + Fold(d)].body(ClassName(m), m.data + o)
  {
  }
}
