/**
The converters between JSON values and Python objects. Python dictionaries and JSON objects are maps: neither equality
looks at the order of the members. `int` is unbounded in Python and 64 bits wide in JSON.
*/
module Json {
  import opened Options

  const INT64_MIN := -0x8000_0000_0000_0000
  const INT64_MAX := 0x7fff_ffff_ffff_ffff

  type Int64 = x: int | INT64_MIN <= x <= INT64_MAX
  type UInt64 = x: int | 0 <= x <= 0xffff_ffff_ffff_ffff

  /** A double, by its bit pattern. */
  type Double = x: int | 0 <= x <= 0xffff_ffff_ffff_ffff

  datatype Value =
    | Null
    | Bool(b: bool)
    | Int(i: Int64)
    | UInt(u: UInt64)
    | Real(d: Double)
    | Str(s: string)
    | Arr(items: seq<Value>)
    | Obj(members: map<string, Value>)

  /**
  A dictionary key: a string, a byte string, which casts to the string of its bytes, or something that does not cast.
  */
  datatype Key = Name(name: string) | Bytes(name: string) | OtherKey(hash: int)

  datatype Py =
    | PyNone
    | PyBool(b: bool)
    | PyInt(i: int)
    | PyFloat(d: Double)
    | PyStr(s: string)
    | PyList(items: seq<Py>)
    | PyDict(members: map<Key, Py>)
    | PyOther

  /** `Threw` stands for the cast error that leaves the converter. */
  datatype Result<+T> = Ok(value: T) | Threw

  /** `json_to_pyobj`. */
  function JsonToPy(j: Value): Py {
    match j
    case Null => PyNone
    case Bool(b) => PyBool(b)
    case Int(i) => PyInt(i)
    case UInt(u) => PyInt(u)
    case Real(d) => PyFloat(d)
    case Str(s) => PyStr(s)
    case Arr(items) => PyList(seq(|items|, i requires 0 <= i < |items| => JsonToPy(items[i])))
    case Obj(members) => PyDict(map k | k in Names(members.Keys) :: JsonToPy(members[k.name]))
  }

  function Names(keys: set<string>): set<Key> {
    set k | k in keys :: Name(k)
  }

  /** The object can be converted: every integer fits in 64 bits and every key casts to a string. */
  predicate Convertible(p: Py) {
    match p
    case PyInt(i) => INT64_MIN <= i <= INT64_MAX
    case PyList(items) => forall x :: x in items ==> Convertible(x)
    case PyDict(members) => forall k :: k in members ==> !k.OtherKey? && Convertible(members[k])
    case _ => true
  }

  /**
  `j` is what `pyobj_to_json` may make of `p`. Keys that cast to the same string compete for one member, and which of
  them wins depends on the order of the dictionary. `boolFirst` is false for a converter that tests for int before
  bool.
  */
  ghost predicate Matches(p: Py, j: Value, boolFirst: bool)
    decreases p
  {
    match p
    case PyNone => j == Null
    case PyBool(b) => j == if boolFirst then Bool(b) else Int(if b then 1 else 0)
    case PyInt(i) => j.Int? && j.i == i
    case PyFloat(d) => j == Real(d)
    case PyStr(s) => j == Str(s)
    case PyList(items) =>
      && j.Arr? && |j.items| == |items|
      && forall i :: 0 <= i < |items| ==> Matches(items[i], j.items[i], boolFirst)
    case PyDict(members) =>
      && j.Obj?
      && (forall k :: k in members ==> !k.OtherKey? && k.name in j.members)
      && (forall s :: s in j.members ==> exists k :: Wins(p, k, s) && Matches(members[k], j.members[s], boolFirst))
    case PyOther => j == Null
  }

  /** The key casts to the string. */
  predicate Wins(p: Py, k: Key, s: string) {
    p.PyDict? && k in p.members && !k.OtherKey? && k.name == s
  }

  /** Every unsigned number also fits in a signed one. */
  predicate Fits(j: Value) {
    match j
    case UInt(u) => u <= INT64_MAX
    case Arr(items) => forall x :: x in items ==> Fits(x)
    case Obj(members) => forall k :: k in members ==> Fits(members[k])
    case _ => true
  }

  /** The same tree with every unsigned number rewritten as a signed one. */
  function Signed(j: Value): Value
    requires Fits(j)
  {
    match j
    case UInt(u) => Int(u)
    case Arr(items) => Arr(seq(|items|, i requires 0 <= i < |items| => Signed(items[i])))
    case Obj(members) => Obj(map k | k in members :: Signed(members[k]))
    case _ => j
  }

  /** The object is made of the kinds the converter knows, and every key is a string. */
  predicate Known(p: Py) {
    match p
    case PyOther => false
    case PyList(items) => forall x :: x in items ==> Known(x)
    case PyDict(members) => forall k :: k in members ==> k.Name? && Known(members[k])
    case _ => true
  }

  /**
  From Python and back: whatever the order of the dictionaries, the identity exactly on objects made of the kinds the
  converter knows, with string keys.
  */
  lemma {:induction false} PyRoundTrip(p: Py, j: Value)
    requires Convertible(p) && Matches(p, j, true)
    ensures JsonToPy(j) == p <==> Known(p)
    decreases p, 1
  {
    match p
    case PyList(items) =>
      var back := JsonToPy(j).items;
      forall i | 0 <= i < |items|
        ensures back[i] == items[i] <==> Known(items[i])
      {
        PyRoundTrip(items[i], j.items[i]);
      }
      if !Known(p) {
        var i :| 0 <= i < |items| && !Known(items[i]);
        assert back[i] != items[i];
      } else {
        assert back == items;
      }
    case PyDict(_) => PyDictRoundTrip(p, j);
    case _ =>
  }

  lemma {:induction false} PyDictRoundTrip(p: Py, j: Value)
    requires p.PyDict? && Convertible(p) && Matches(p, j, true)
    ensures JsonToPy(j) == p <==> Known(p)
    decreases p, 0, 1
  {
    if forall k :: k in p.members ==> k.Name? {
      NamedDictRoundTrip(p, j);
    } else {
      var k :| k in p.members && !k.Name?;
      assert k !in JsonToPy(j).members;
    }
  }

  lemma {:induction false} NamedDictRoundTrip(p: Py, j: Value)
    requires p.PyDict? && Convertible(p) && Matches(p, j, true) && forall k :: k in p.members ==> k.Name?
    ensures JsonToPy(j) == p <==> Known(p)
    decreases p, 0, 0
  {
    var members, back := p.members, JsonToPy(j).members;
    NamesBack(p, j);
    assert back.Keys == members.Keys;
    forall k | k in members
      ensures back[k] == members[k] <==> Known(members[k])
    {
      OnlyNameWins(p, k);
      PyRoundTrip(members[k], j.members[k.name]);
    }
    if !Known(p) {
      var k :| k in members && !Known(members[k]);
      assert back[k] != members[k];
    } else {
      assert back == members;
    }
  }

  lemma NamesBack(p: Py, j: Value)
    requires p.PyDict? && Matches(p, j, true) && forall k :: k in p.members ==> k.Name?
    ensures Names(j.members.Keys) == p.members.Keys
  {
    forall k | k in p.members
      ensures k in Names(j.members.Keys)
    {
      assert k == Name(k.name) && k.name in j.members.Keys;
    }
    forall k | k in Names(j.members.Keys)
      ensures k in p.members
    {
      var w :| Wins(p, w, k.name) && Matches(p.members[w], j.members[k.name], true);
      assert w == k;
    }
  }

  lemma OnlyNameWins(p: Py, k: Key)
    requires p.PyDict? && k in p.members && forall m :: m in p.members ==> m.Name?
    ensures forall w :: Wins(p, w, k.name) <==> w == k
  {
  }

  /** No two keys of a dictionary cast to the same string. */
  predicate Unambiguous(p: Py) {
    match p
    case PyList(items) => forall x :: x in items ==> Unambiguous(x)
    case PyDict(members) =>
      && (forall k :: k in members ==> Unambiguous(members[k]))
      && (forall k, m :: k in members && m in members && !k.OtherKey? && !m.OtherKey? && k.name == m.name ==> k == m)
    case _ => true
  }

  /** Then there is one result only. */
  lemma {:induction false} OneResult(p: Py, j: Value, other: Value)
    requires Unambiguous(p) && Matches(p, j, true) && Matches(p, other, true)
    ensures j == other
    decreases p
  {
    match p
    case PyList(items) =>
      forall i | 0 <= i < |items|
        ensures j.items[i] == other.items[i]
      {
        assert items[i] in items;
        OneResult(items[i], j.items[i], other.items[i]);
      }
    case PyDict(members) =>
      forall s
        ensures s in j.members <==> s in other.members
      {
      }
      forall s | s in j.members
        ensures j.members[s] == other.members[s]
      {
        var k :| Wins(p, k, s) && Matches(members[k], j.members[s], true);
        var m :| Wins(p, m, s) && Matches(members[m], other.members[s], true);
        assert k == m;
        OneResult(members[k], j.members[s], other.members[s]);
      }
      assert j.members == other.members;
    case _ =>
  }

  /** Otherwise there may be more. */
  lemma AmbiguousHasTwoResults()
    ensures var p := PyDict(map[Name("a") := PyNone, Bytes("a") := PyBool(true)]);
      !Unambiguous(p) && Matches(p, Obj(map["a" := Null]), true) && Matches(p, Obj(map["a" := Bool(true)]), true)
  {
    var p := PyDict(map[Name("a") := PyNone, Bytes("a") := PyBool(true)]);
    assert Wins(p, Name("a"), "a") && Wins(p, Bytes("a"), "a");
  }

  /** One value of each kind, and what it becomes, in a list that keeps its order. */
  lemma ConvertsEachKind()
    ensures JsonToPy(Arr([Null, Bool(true), Int(-1), UInt(2), Real(3), Str("x")]))
         == PyList([PyNone, PyBool(true), PyInt(-1), PyInt(2), PyFloat(3), PyStr("x")])
  {
    var there := JsonToPy(Arr([Null, Bool(true), Int(-1), UInt(2), Real(3), Str("x")])).items;
    assert there == [PyNone, PyBool(true), PyInt(-1), PyInt(2), PyFloat(3), PyStr("x")];
  }

  /** And the other way; an object of no known kind becomes null. */
  lemma ConvertsEachKindBack(j: Value)
    ensures Matches(PyNone, j, true) <==> j == Null
    ensures Matches(PyBool(true), j, true) <==> j == Bool(true)
    ensures Matches(PyInt(-1), j, true) <==> j == Int(-1)
    ensures Matches(PyFloat(3), j, true) <==> j == Real(3)
    ensures Matches(PyStr("x"), j, true) <==> j == Str("x")
    ensures Matches(PyOther, j, true) <==> j == Null
  {
  }

  lemma ConvertsListBack(j: Value)
    ensures Matches(PyList([PyInt(1), PyStr("x")]), j, true) <==> j == Arr([Int(1), Str("x")])
  {
    if j.Arr? && |j.items| == 2 {
      assert j.items == [j.items[0], j.items[1]];
      assert [PyInt(1), PyStr("x")][0] == PyInt(1) && [PyInt(1), PyStr("x")][1] == PyStr("x");
    }
  }

  /** Members keep their names. */
  lemma ConvertsMembers()
    ensures JsonToPy(Obj(map["a" := Null, "b" := Bool(true)]))
         == PyDict(map[Name("a") := PyNone, Name("b") := PyBool(true)])
  {
    var members: map<string, Value> := map["a" := Null, "b" := Bool(true)];
    var named := JsonToPy(Obj(members)).members;
    assert members.Keys == {"a", "b"} && named.Keys == Names(members.Keys);
    forall k
      ensures k in named <==> k == Name("a") || k == Name("b")
    {
    }
    assert named == map[Name("a") := PyNone, Name("b") := PyBool(true)];
  }

  lemma {:induction false} ConvertibleIffFits(j: Value)
    ensures Convertible(JsonToPy(j)) <==> Fits(j)
    decreases j
  {
    match j
    case Arr(items) =>
      var there := JsonToPy(j).items;
      forall i | 0 <= i < |items|
        ensures Convertible(there[i]) <==> Fits(items[i])
      {
        ConvertibleIffFits(items[i]);
      }
      if !Fits(j) {
        var i :| 0 <= i < |items| && !Fits(items[i]);
        assert there[i] in there;
      }
    case Obj(members) =>
      var there := JsonToPy(j).members;
      forall k | k in members
        ensures Name(k) in there && (Convertible(there[Name(k)]) <==> Fits(members[k]))
      {
        assert Name(k) in Names(members.Keys);
        ConvertibleIffFits(members[k]);
      }
      if !Fits(j) {
        var k :| k in members && !Fits(members[k]);
        assert !Convertible(there[Name(k)]);
      }
    case _ =>
  }

  /** From JSON and back: possible exactly when the unsigned numbers fit, and then the tree with signed numbers. */
  lemma {:induction false} JsonRoundTrip(j: Value, back: Value)
    ensures Convertible(JsonToPy(j)) <==> Fits(j)
    ensures Fits(j) ==> (Matches(JsonToPy(j), back, true) <==> back == Signed(j))
    decreases j, 1
  {
    ConvertibleIffFits(j);
    if Fits(j) {
      match j
      case Arr(items) =>
        var there := JsonToPy(j).items;
        if back.Arr? && |back.items| == |items| {
          forall i | 0 <= i < |items|
            ensures Matches(there[i], back.items[i], true) <==> back.items[i] == Signed(items[i])
          {
            JsonRoundTrip(items[i], back.items[i]);
          }
          assert back == Signed(j) <==> forall i :: 0 <= i < |items| ==> back.items[i] == Signed(items[i]);
        }
      case Obj(_) =>
        if back.Obj? {
          JsonObjRoundTrip(j, back);
        }
      case _ =>
    }
  }

  lemma NameWins(j: Value, s: string)
    requires j.Obj? && s in j.members
    ensures Name(s) in JsonToPy(j).members && JsonToPy(j).members[Name(s)] == JsonToPy(j.members[s])
    ensures forall w :: Wins(JsonToPy(j), w, s) <==> w == Name(s)
  {
    assert JsonToPy(j).members.Keys == Names(j.members.Keys) && Name(s) in Names(j.members.Keys);
  }

  lemma {:induction false} JsonObjRoundTrip(j: Value, back: Value)
    requires j.Obj? && Fits(j) && back.Obj?
    ensures Matches(JsonToPy(j), back, true) <==> back == Signed(j)
    decreases j, 0
  {
    forall s | s in j.members && s in back.members
      ensures Matches(JsonToPy(j.members[s]), back.members[s], true) <==> back.members[s] == Signed(j.members[s])
    {
      JsonRoundTrip(j.members[s], back.members[s]);
    }
    if Matches(JsonToPy(j), back, true) {
      MatchedObjIsSigned(j, back);
    } else if back == Signed(j) {
      SignedObjMatches(j, back);
    }
  }

  lemma WinnerMatches(j: Value, back: Value, s: string)
    requires j.Obj? && back.Obj? && Matches(JsonToPy(j), back, true)
    ensures s in back.members <==> s in j.members
    ensures s in j.members ==> Matches(JsonToPy(j.members[s]), back.members[s], true)
  {
    var p := JsonToPy(j);
    if s in j.members {
      NameWins(j, s);
    }
    if s in back.members {
      var k :| Wins(p, k, s) && Matches(p.members[k], back.members[s], true);
      assert k in Names(j.members.Keys);
    }
  }

  lemma MatchedObjIsSigned(j: Value, back: Value)
    requires j.Obj? && Fits(j) && back.Obj? && Matches(JsonToPy(j), back, true)
    requires forall s :: s in j.members && s in back.members ==>
      Matches(JsonToPy(j.members[s]), back.members[s], true) ==> back.members[s] == Signed(j.members[s])
    ensures back == Signed(j)
  {
    forall s
      ensures s in back.members <==> s in j.members
      ensures s in j.members ==> back.members[s] == Signed(j.members[s])
    {
      WinnerMatches(j, back, s);
    }
    assert back.members == Signed(j).members;
  }

  lemma SignedObjMatches(j: Value, back: Value)
    requires j.Obj? && Fits(j) && back == Signed(j)
    requires forall s :: s in j.members ==> Matches(JsonToPy(j.members[s]), back.members[s], true)
    ensures Matches(JsonToPy(j), back, true)
  {
    var p := JsonToPy(j);
    assert p.members.Keys == Names(j.members.Keys);
    forall s | s in back.members
      ensures exists k :: Wins(p, k, s) && Matches(p.members[k], back.members[s], true)
    {
      NameWins(j, s);
      assert Wins(p, Name(s), s);
    }
  }

  /** Python's `bool` is a subclass of `int`, so both tests accept a bool. */
  predicate IsInstanceBool(p: Py) {
    p.PyBool?
  }

  predicate IsInstanceInt(p: Py) {
    p.PyInt? || p.PyBool?
  }

  predicate HasBool(p: Py) {
    match p
    case PyBool(_) => true
    case PyList(items) => exists x :: x in items && HasBool(x)
    case PyDict(members) => exists k :: k in members && HasBool(members[k])
    case _ => false
  }

  /** The order of the tests for bool and int matters exactly for objects that hold a bool somewhere. */
  lemma {:induction false} BoolBeforeInt(p: Py, j: Value)
    requires Unambiguous(p) && Matches(p, j, true)
    ensures Matches(p, j, false) <==> !HasBool(p)
    decreases p
  {
    match p
    case PyList(items) =>
      forall i | 0 <= i < |items|
        ensures Matches(items[i], j.items[i], false) <==> !HasBool(items[i])
      {
        assert items[i] in items;
        BoolBeforeInt(items[i], j.items[i]);
      }
      if HasBool(p) {
        var i :| 0 <= i < |items| && HasBool(items[i]);
        assert !Matches(items[i], j.items[i], false);
      }
    case PyDict(members) =>
      forall s, k | s in j.members && Wins(p, k, s)
        ensures Matches(members[k], j.members[s], false) <==> !HasBool(members[k])
      {
        var w :| Wins(p, w, s) && Matches(members[w], j.members[s], true);
        assert w == k;
        BoolBeforeInt(members[k], j.members[s]);
      }
      if HasBool(p) {
        var k :| k in members && HasBool(members[k]);
        assert Wins(p, k, k.name);
      } else {
        forall s | s in j.members
          ensures exists k :: Wins(p, k, s) && Matches(members[k], j.members[s], false)
        {
          var k :| Wins(p, k, s) && Matches(members[k], j.members[s], true);
        }
      }
    case _ =>
  }

  /** `json_to_pyobj`, filling a list or a dictionary one element at a time. */
  method JsonToPyobj(json: Value) returns (obj: Py)
    ensures obj == JsonToPy(json)
    decreases json
  {
    match json {
      case Null => obj := PyNone;
      case Bool(b) => obj := PyBool(b);
      case Int(i) => obj := PyInt(i);
      case UInt(u) => obj := PyInt(u);
      case Real(d) => obj := PyFloat(d);
      case Str(s) => obj := PyStr(s);
      case Arr(items) =>
        var arr: seq<Py> := [];
        for i := 0 to |items|
          invariant |arr| == i && forall k :: 0 <= k < i ==> arr[k] == JsonToPy(items[k])
        {
          var item := JsonToPyobj(items[i]);
          arr := arr + [item];
        }
        obj := PyList(arr);
        assert arr == JsonToPy(json).items;
      case Obj(members) =>
        var dict: map<Key, Py> := map[];
        var pending := members.Keys;
        while pending != {}
          invariant pending <= members.Keys
          invariant dict.Keys == Names(members.Keys - pending)
          invariant forall k :: k in members && k !in pending ==>
            Name(k) in dict && dict[Name(k)] == JsonToPy(members[k])
          decreases |pending|
        {
          var name :| name in pending;
          var item := JsonToPyobj(members[name]);
          dict := dict[Name(name) := item];
          pending := pending - {name};
        }
        obj := PyDict(dict);
        assert members.Keys - pending == members.Keys;
        assert dict == JsonToPy(json).members;
    }
  }

  /** `pyobj_to_json`; the first element that cannot be cast ends it. */
  method PyobjToJson(src: Py) returns (r: Result<Value>)
    ensures r.Ok? <==> Convertible(src)
    ensures r.Ok? ==> Matches(src, r.value, true)
    decreases src, 1
  {
    if src.PyNone? {
      return Ok(Null);
    }
    if IsInstanceBool(src) {
      return Ok(Bool(src.b));
    }
    if IsInstanceInt(src) {
      if !(INT64_MIN <= src.i <= INT64_MAX) {
        return Threw;
      }
      return Ok(Int(src.i));
    }
    if src.PyFloat? {
      return Ok(Real(src.d));
    }
    if src.PyStr? {
      return Ok(Str(src.s));
    }
    if src.PyList? {
      var arr: seq<Value> := [];
      for i := 0 to |src.items|
        invariant |arr| == i
        invariant forall k :: 0 <= k < i ==> Convertible(src.items[k]) && Matches(src.items[k], arr[k], true)
      {
        var item := PyobjToJson(src.items[i]);
        if item.Threw? {
          assert src.items[i] in src.items;
          return Threw;
        }
        arr := arr + [item.value];
      }
      return Ok(Arr(arr));
    }
    if src.PyDict? {
      r := DictToJson(src);
      return;
    }
    return Ok(Null);
  }

  /** The loop over a dictionary, in any order, which the top-level caster runs as well; a later key wins. */
  method DictToJson(src: Py) returns (r: Result<Value>)
    requires src.PyDict?
    ensures r.Ok? <==> Convertible(src)
    ensures r.Ok? ==> Matches(src, r.value, true)
    decreases src, 0
  {
    var members := src.members;
    var obj: map<string, Value> := map[];
    var pending := members.Keys;
    while pending != {}
      invariant pending <= members.Keys
      invariant forall k :: k in members && k !in pending ==>
        !k.OtherKey? && Convertible(members[k]) && k.name in obj
      invariant forall s :: s in obj ==> exists k :: Wins(src, k, s) && Matches(members[k], obj[s], true)
      decreases |pending|
    {
      var key :| key in pending;
      if key.OtherKey? {
        return Threw;
      }
      var item := PyobjToJson(members[key]);
      if item.Threw? {
        return Threw;
      }
      assert Wins(src, key, key.name);
      obj := obj[key.name := item.value];
      pending := pending - {key};
    }
    assert Convertible(src);
    r := Ok(Obj(obj));
  }

  /**
  What the caster gives to Python. The elements of an array have no name, so all of them are stored under the empty
  one; any other value has no members.
  */
  function Given(j: Value): Py {
    match j
    case Obj(_) => JsonToPy(j)
    case Arr(items) => PyDict(if items == [] then map[] else map[Name("") := JsonToPy(items[|items| - 1])])
    case _ => PyDict(map[])
  }

  /** From JSON through the caster and back: the tree survives, with signed numbers, exactly when it is an object. */
  lemma CasterRoundTrip(j: Value, back: Value)
    requires Fits(j) && Convertible(Given(j)) && Matches(Given(j), back, true)
    ensures back == Signed(j) <==> j.Obj?
  {
    if j.Obj? {
      JsonRoundTrip(j, back);
    } else {
      assert back.Obj? && !Signed(j).Obj?;
    }
  }

  /** Of an array nothing but the last element comes back, under the empty name. */
  lemma ArrayKeepsLast(items: seq<Value>, back: Value)
    requires Fits(Arr(items)) && items != [] && Matches(Given(Arr(items)), back, true)
    ensures back == Obj(map["" := Signed(items[|items| - 1])])
  {
    var last := items[|items| - 1];
    var p := PyDict(map[Name("") := JsonToPy(last)]);
    assert last in items && Name("") in p.members && back.Obj? && "" in back.members;
    forall s | s in back.members
      ensures s == "" && back.members[s] == Signed(last)
    {
      var k :| Wins(p, k, s) && Matches(p.members[k], back.members[s], true);
      JsonRoundTrip(last, back.members[s]);
    }
    assert back.members == map["" := Signed(last)];
  }

  /** From Python through the caster and back: a dictionary survives exactly when it is of known kinds. */
  lemma LoadedRoundTrip(p: Py, j: Value)
    requires p.PyDict? && Convertible(p) && Matches(p, j, true)
    ensures Given(j) == p <==> Known(p)
  {
    PyRoundTrip(p, j);
  }

  /** `type_caster::load`: only dictionaries are accepted; anything else is refused, without an exception. */
  method Load(src: Py) returns (r: Result<Option<Value>>)
    ensures r == Ok(None) <==> !src.PyDict?
    ensures r == Threw <==> src.PyDict? && !Convertible(src)
    ensures r.Ok? && r.value.Some? ==> Matches(src, r.value.value, true)
  {
    if !src.PyDict? {
      return Ok(None);
    }
    var value := DictToJson(src);
    r := if value.Ok? then Ok(Some(value.value)) else Threw;
  }

  /** `type_caster::cast`. */
  method Cast(src: Value) returns (r: Py)
    ensures r == Given(src)
    ensures src.Obj? ==> r == JsonToPy(src)
    ensures src.Arr? && src.items != [] ==> r == PyDict(map[Name("") := JsonToPy(src.items[|src.items| - 1])])
    ensures !src.Obj? && !(src.Arr? && src.items != []) ==> r == PyDict(map[])
  {
    var dict: map<Key, Py> := map[];
    if src.Obj? {
      var pending := src.members.Keys;
      while pending != {}
        invariant pending <= src.members.Keys
        invariant dict.Keys == Names(src.members.Keys - pending)
        invariant forall k :: k in src.members && k !in pending ==>
          Name(k) in dict && dict[Name(k)] == JsonToPy(src.members[k])
        decreases |pending|
      {
        var name :| name in pending;
        var item := JsonToPyobj(src.members[name]);
        dict := dict[Name(name) := item];
        pending := pending - {name};
      }
      assert src.members.Keys - pending == src.members.Keys;
      assert dict == JsonToPy(src).members;
    } else if src.Arr? {
      for i := 0 to |src.items|
        invariant dict == if i == 0 then map[] else map[Name("") := JsonToPy(src.items[i - 1])]
      {
        var item := JsonToPyobj(src.items[i]);
        dict := dict[Name("") := item];
      }
    }
    r := PyDict(dict);
  }
}
