# SimpleModel: an immutable record base class, modelled in Dafny

`SimpleModel` (`src/Model.php`) is a PHP base class for immutable records. It was
inspired by Scala case classes. A record is built from an associative array, its
*payload*. The record remembers its concrete class name. After construction it is
read-only:

- `$m->name` resolves in three steps. A raw payload key wins. Otherwise the method
  `'get' . ucfirst(name)` is called, and its result is the *derived* field. Otherwise the
  read throws `OutOfBoundsException`.
- `hasProperty`, `hasMethod`, `has` and `isset` answer existence questions.
- Assigning or unsetting a field always throws.
- `toArray` exports the payload.
- `copy($overrides)` builds a new record of the same class from
  `array_merge($data, $overrides)`.

The model is pure, as the class is. A record is the datatype `SimpleModel.Model`: the
class it was built as (`Class`: name and method table) plus the payload
(`map<string, Value>`). Each PHP entry point is a function: `Get`, `Set`, `Unset`,
`IsSetAsWritten`, `ToArray`, `Has`, `HasProperty`, `HasMethod`, `Copy` and `New`.
`IsSetAsWritten` is `__isset` as the code evaluates it. `IsSet` is the rule the method's
documentation states (src/Model.php:117-122), and the two are compared under
"## Findings". An exception becomes `Failure` of the `Error` datatype, which carries what
the message carries. A concrete class supplies its methods as an explicit table. Each
entry holds the method's visibility and what a call computes. The table is keyed by the
lower-cased method name, because PHP looks methods up without regard to ASCII case; the
subset type `Class` keeps that invariant. The base class's own methods (`toArray`,
`copy`, `__get`, …) are in `BaseMethods`, and `method_exists` sees them too. `Php` holds the PHP built-ins the class relies on:
ASCII case folding, `ucfirst`, string conversion, and the integer-key rule of PHP
arrays. `Person` is the test fixture (`tests/_files/Person.php`), with the values
`tests/ModelTest.php` expects.

Where the tests or the documentation read differently from the code, the model takes the
code, except for `isset`, where it states both (see "## Findings"):

- `has(name)` checks `name` itself as a method name, not the getter that backs a derived
  field. So `has('fullName')` is false for `Person`, while `has('getFullName')` is true.
- The tests call `hasField` and refer to `Webbower\SimpleData\Model`. The class
  declares `hasProperty` in `Webbower\SimpleModel`. The model uses `hasProperty`.

## Model

| member | source | states |
|---|---|---|
| `SimpleModel.New` | src/Model.php:61-66 | construction stores the payload unvalidated and keeps the class it was called on: the record's class is that class, with its name and every method's visibility and body, and the export is exactly the payload |
| `SimpleModel.Get` | src/Model.php:81-95 | a payload key returns its stored value, null included, even when a getter exists; otherwise, when the class has a method named `get` + ucfirst(name) in any letter case, that method's result over the payload, or, when the class declared it private, the `PrivateMethodCall` error naming the getter and the class; otherwise `FieldNotFound` naming the field and the class |
| `SimpleModel.Set` | src/Model.php:104-112 | every write fails with `ImmutableViolation` naming the class and the modify kind, for any name and value |
| `SimpleModel.Unset` | src/Model.php:136-139 | every removal fails with `ImmutableViolation` naming the class and the unset kind, for any name |
| `SimpleModel.IsSet` | src/Model.php:117-122 | set iff the name is a payload key whose value is not null |
| `SimpleModel.IsSetAsWritten` | src/Model.php:124-127 | the code's `isset`: a payload key that is "data" or "class", or whose value is not null |
| `SimpleModel.ToArray` | src/Model.php:148-151 | the export has exactly the keys `hasProperty` accepts, and each maps to what a read of that key returns; no derived entries |
| `SimpleModel.Copy` | src/Model.php:208-213 | same class; keys are the original's plus the overrides'; override values win; every other key reads as in the original |
| `SimpleModel.GetterName` | src/Model.php:83 | the getter name is "get" followed by the field name, three characters longer; its fourth character is the field's first letter made upper case, and the rest of the field name follows unchanged |
| `SimpleModel.GetterNameFolds` | src/Model.php:83 | up to ASCII case, the getter of `name` is "get" followed by `name` |
| `SimpleModel.GetterIsNotBaseMethod` | src/Model.php:83-90 | no getter name is one of the base class's own methods, so a derived read always calls a method of the concrete class |
| `SimpleModel.Message` | src/Model.php:93-138 | each message is the fixed texts of its kind in order, each at a fixed place, with the variable parts between them: a read failure is "Error getting data ", the field, ": does not exist on ", the class; a blocked modify or unset is its lead text, the class, " after instantiation"; a private call is "Call to private method ", the class, "::", the getter, "() from scope ", the base class |
| `SimpleModel.ViolationMessageIdentifies` | src/Model.php:111-138 | two blocked-mutation errors with the same message are the same error: the modify and unset texts differ, and the class follows at a fixed place |
| `SimpleModel.HasProperty` | src/Model.php:178-181 | true iff the name is a payload key, whatever its value, null included |
| `SimpleModel.HasMethod` | src/Model.php:193-196 | true iff some inherited or declared method's name equals the given name up to ASCII case |
| `SimpleModel.Has` | src/Model.php:163-166 | true iff the name is a payload key, or equals some inherited or declared method's name up to ASCII case |
| `SimpleModel.BaseMethodsFolded` | src/Model.php:195 | the entries of `BaseMethods`, the lower-cased names of the base class's own methods, fold to themselves, so each is its own lookup key |
| `SimpleModel.PrivateGetterIsSeenButFails` | src/Model.php:88-90 | a private getter is seen by `has` and `hasMethod`, but reading the field it backs fails with `PrivateMethodCall` |
| `SimpleModel.ExportRebuilds` | src/Model.php:148-151 | constructing from a record's export, with its class, gives the same record |
| `SimpleModel.NullIsPresentButNotSet` | src/Model.php:178-181 | a stored null is present, is not set, and reads back as null |
| `SimpleModel.DerivedOnlyIsNotSet` | src/Model.php:124-127 | a name with no payload key is not set, even when a getter backs it |
| `SimpleModel.DerivedLookupIgnoresCase` | src/Model.php:83-90 | two names equal up to ASCII case and absent from the payload find the same getter; when it is not private they read the same value; when it is private each fails naming the getter as called; with no getter each fails naming itself |
| `SimpleModel.PlainMethodIsNotAField` | src/Model.php:81-95 | a method name without a getter named after it is seen by `has` but fails to read with `FieldNotFound` |
| `SimpleModel.ReadableNameIsBacked` | src/Model.php:163-166 | every name that reads successfully is a name `has` accepts, or its getter is |
| `SimpleModel.HasMethodIgnoresCase` | src/Model.php:193-196 | `hasMethod`, and `has` for names that are not payload keys, ignore ASCII case |
| `SimpleModel.DeclaredMethodIsFound` | src/Model.php:193-196 | every method a class declares is found by `hasMethod` |
| `SimpleModel.HasBaseMethods` | src/Model.php:193-196 | every record `has` the base class's own method names, in any letter case |
| `SimpleModel.IsSetAsWrittenElsewhere` | src/Model.php:124-127 | for every name other than "data" and "class", the code's `isset` is the documented one |
| `SimpleModel.IsSetAsWrittenNullData` | src/Model.php:124-127 | a payload whose "data" key holds null is reported set by the code and not set by the documented rule |
| `SimpleModel.AttemptsChangeNothing` | src/Model.php:104-112 | any sequence of writes and removals leaves the record and its export unchanged, and each one raises the `ImmutableViolation` of its kind |
| `SimpleModel.CopyNothing` | src/Model.php:208-213 | copying with no overrides gives the same record |
| `SimpleModel.CopyOwnExport` | src/Model.php:208-213 | copying with the record's own export gives the same record |
| `SimpleModel.CopyTwice` | src/Model.php:208-213 | two copies in a row are one copy with the merged overrides |
| `SimpleModel.CopyIdempotent` | src/Model.php:208-213 | copying twice with the same overrides is copying once |
| `SimpleModel.CopyRecomputesDerived` | src/Model.php:208-213 | a derived field of the copy reads as from a record built over the merged payload; for a getter that is not private, it is the getter applied to that payload |
| `Php.Fold` | src/Model.php:195 | same length; each character lower-cased on its own (ASCII); no upper-case ASCII letter is left |
| `Php.FoldIdempotent` | src/Model.php:195 | folding a folded name changes nothing |
| `Php.UcFirst` | src/Model.php:83 | same length; everything after the first character is untouched; the first character is no longer a lower-case ASCII letter and is the same letter up to case |
| `Php.FoldUcFirst` | src/Model.php:83 | after case folding, `ucfirst(s)` and `s` name the same method |
| `Php.IsIntegerKey` | src/Model.php:212 | an integer key is non-empty and starts with '-', a non-zero digit, or is "0" |
| `Php.NatToDecimal` | src/Model.php:212 | the decimal form of a natural number is a non-empty digit string that denotes it, with a leading zero only for zero |
| `Php.CanonicalDigits` | src/Model.php:212 | a digit string without a leading zero is the decimal form of the number it denotes |
| `Php.DecimalIsIntegerKey` | src/Model.php:212 | the decimal form of every 64-bit integer is an integer key standing for that integer |
| `Php.IntegerKeyIsDecimal` | src/Model.php:212 | every integer key stands for a 64-bit integer and is its decimal form: integer keys are exactly those decimal forms |
| `Php.ToString` | tests/_files/Person.php:23 | string conversion gives "" exactly for null, false and ""; a string converts to itself |
| `Person.GetFullName` | tests/_files/Person.php:21-24 | without a first name it fails naming `firstName`; with a first name but no last name it fails naming `lastName`; with both it is a string made of the first name, one space, then the last name |
| `Person.ReadField` | tests/_files/Person.php:23 | a field read inside a Person method gives the stored value when the payload has the key, and `FieldNotFound` naming the field and the class otherwise |
| `Person.ReadFieldIsGet` | tests/_files/Person.php:21-24 | inside `getFullName`, reading `firstName` or `lastName` is the full field read |
| `Person.FullNameOfAnyPerson` | tests/_files/Person.php:21-24 | for any payload with string first and last names and no `fullName` key, `fullName` reads as first + " " + last |
| `Person.FullNameWithoutFirstName` | tests/_files/Person.php:21-24 | without a first name, reading `fullName` fails with the nested `FieldNotFound` for `firstName` |
| `Person.RawReads` | tests/ModelTest.php:28-36 | the fixture's raw fields read back as stored, `house` as null |
| `Person.DerivedRead` | tests/ModelTest.php:38-41 | `fullName` reads "Bob Smith" |
| `Person.NoGetterOfOtherLength` | tests/_files/Person.php:21-32 | Person's only getter is `getFullName`, so a field name of any length other than eight has no getter |
| `Person.MissingFieldRead` | tests/ModelTest.php:43-50 | `foo` fails with `FieldNotFound` and the expected message |
| `Person.MissingFieldMessage` | tests/ModelTest.php:43-50 | the failure for `foo` carries the expected message |
| `Person.PlainMethodRead` | tests/ModelTest.php:52-59 | `someMethod` fails with `FieldNotFound` |
| `Person.PlainMethodReadMessage` | tests/ModelTest.php:52-59 | that failure carries the expected message |
| `Person.WritesFail` | tests/ModelTest.php:61-88 | assigning `age` and unsetting `age` fail with the expected kinds and messages |
| `Person.IssetAndHasProperty` | tests/ModelTest.php:70-99 | `isset` and `hasProperty` give the expected answers, `house` present but not set |
| `Person.HasNames` | src/Model.php:163-166 | `has('fullName')` is false; `has('getFullName')`, `has('someMethod')` and `has('toArray')` are true |
| `Person.FullNameIsNoMethod` | src/Model.php:193-196 | `hasMethod('fullName')` is false for Person |
| `Person.PersonMethodNames` | src/Model.php:193-196 | `hasMethod` finds `getFullName`, `someMethod` and `toArray` on Person |
| `Person.Export` | tests/ModelTest.php:101-113 | the export is the fixture payload |
| `Person.ScenarioKeysAreStrings` | tests/ModelTest.php:8-15 | no fixture or override key is an integer key |
| `Person.CopyChangesValues` | tests/ModelTest.php:115-135 | the copy is a Person and reads the overridden `age`, `married` and `kids` |
| `Person.CopyKeepsValues` | tests/ModelTest.php:130-136 | the copy keeps `firstName`, `lastName` and `house` |
| `Person.CopyLeavesOriginal` | tests/ModelTest.php:123-144 | the copy differs from the original, which still reads its own values |

## Findings

| source | as written | input that shows it | evidently intended | confidence | as-written member | corrected member |
|---|---|---|---|---|---|---|
| src/Model.php:124-127 | `__isset` reads `$this->$name` from inside the class, so the names "data" and "class" reach the protected properties `$data` and `$class`, which are never null | a record built from `['data' => null]`: `isset($m->data)` is true | `isset` is true only when the payload key exists and its value is not null, as the method's documentation says | not executed; high | `SimpleModel.IsSetAsWrittenNullData` | `SimpleModel.IsSet` |

## Left out

- Magic-method interception: the model offers explicit `Get`, `Set`, `IsSet` and `Unset` operations instead.
- Reflection: `method_exists` is modelled as a lookup in the class's method table. Only the base class's methods and the ones the class declares are in it. Properties a concrete class declares itself are not modelled, and `IsSetAsWritten` knows only the base class's two.
- SimpleModel.HasMethod: case folding is ASCII-only, as in PHP. Methods that need arguments are not modelled; every method is called with none.
- SimpleModel.Get: a derived method receives the class name and the payload, not the record. Each class states what its own field reads inside a getter do. `Person.ReadFieldIsGet` shows that for Person this is the full field read.
- SimpleModel.Copy: requires that neither payload nor overrides has an integer-like key. `array_merge` renumbers integer keys, and the model uses an unordered map that cannot express that.
- SimpleModel.Copy: `new $newClass(...)` is modelled as the same `ClassDef`. A subclass constructor that does more than the base constructor is not modelled.
- Exception types: `FieldNotFound` and `ImmutableViolation` are `OutOfBoundsException`, and `PrivateMethodCall` is PHP's `Error`. The model keeps their kind and what their message says, and `Message` gives the message text. The text of `PrivateMethodCall` is the one PHP 8 uses.
- SimpleModel.Get: the class that declares a private getter is taken to be the record's own class; private getters inherited from an intermediate class are not modelled. A protected getter is callable from the base class, as in PHP.
- Associative arrays as payload values: `Value.List` stands for list arrays only. Nested associative arrays and their keys are not modelled.
- Shallow immutability: aliasing of nested objects and PHP's copy-on-write arrays are runtime concerns. Values here are immutable.
- `ucfirst` and case folding are ASCII-only. Locale-dependent behaviour is not modelled.
- Floats, objects and resources as payload values: not modelled. `Php.ToString` covers null, booleans, integers, strings and arrays.
- The build tooling (`Gruntfile.js`) and the PHPUnit test runner are not part of this model. The expected values of the test suite appear in the `Person` lemmas.
