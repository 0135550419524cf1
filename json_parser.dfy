/** The JSON configuration parser: a JSON document is flattened into
    configuration keys such as `a:b:0`, each leaf stored at the path of
    object member names and array indexes that leads to it, in a
    dictionary that ignores the case of its keys. */
module JsonConfigurationParsers {
  import opened Wrappers
  import opened Errors
  import opened Text

  /** A parsed JSON value, as `JsonElement` exposes it by `ValueKind`. */
  datatype JsonElement =
    | JObject(members: seq<JsonProperty>)
    | JArray(items: seq<JsonElement>)
    | JString(text: string)
    | JNumber(raw: string)
    | JTrue
    | JFalse
    | JNull
    | JUndefined

  datatype JsonProperty = JsonProperty(name: string, value: JsonElement)

  /** Strings, numbers, booleans and null are stored as values. */
  predicate IsScalar(e: JsonElement) {
    e.JString? || e.JNumber? || e.JTrue? || e.JFalse? || e.JNull?
  }

  /** What `JsonElement.ToString()` gives for a scalar: a string's text, a
      number as written, `True`/`False`, and the empty string for null. */
  function ValueText(e: JsonElement): string
    requires IsScalar(e)
  {
    match e
    case JString(t) => t
    case JNumber(raw) => raw
    case JTrue => "True"
    case JFalse => "False"
    case JNull => ""
  }

  /** The configuration key of a child: the section alone under a blank
      path, otherwise the path and the section joined by `:`. */
  function CombinePath(path: string, section: string): (r: string)
    ensures IsBlank(path) ==> r == section
    ensures !IsBlank(path) ==> |r| == |path| + 1 + |section| && r[..|path|] == path && r[|path|] == ':'
    ensures !IsBlank(path) ==> r[|path| + 1..] == section
  {
    if IsBlank(path) then section else path + ":" + section
  }

  /** The flattened dictionary, keyed by the key with its case folded;
      each entry keeps the key as first written and its value. */
  datatype Entry = Entry(key: string, value: string)
  type Data = map<string, Entry>

  function Fold(key: string): string {
    ToLower(key)
  }

  /** A scalar and the configuration key it is stored at. */
  datatype Leaf = Leaf(path: string, value: string)

  /** No `Undefined` element anywhere in the tree. */
  predicate Defined(e: JsonElement)
    decreases e
  {
    match e
    case JObject(ms) => forall i :: 0 <= i < |ms| ==> Defined(ms[i].value)
    case JArray(items) => forall i :: 0 <= i < |items| ==> Defined(items[i])
    case JUndefined => false
    case _ => true
  }

  /** The leaves of `e` in document order, each with its key. */
  function Leaves(e: JsonElement, path: string): seq<Leaf>
    decreases e, 1
  {
    match e
    case JObject(ms) => MemberLeaves(e, path, |ms|)
    case JArray(items) => ItemLeaves(e, path, |items|)
    case JUndefined => []
    case _ => [Leaf(path, ValueText(e))]
  }

  /** The leaves of the first `n` members of an object. */
  function MemberLeaves(e: JsonElement, path: string, n: nat): seq<Leaf>
    requires e.JObject? && n <= |e.members|
    decreases e, 0, n
  {
    if n == 0 then []
    else
      var m := e.members[n - 1];
      assert m in e.members;
      MemberLeaves(e, path, n - 1) + Leaves(m.value, CombinePath(path, m.name))
  }

  /** The leaves of the first `n` items of an array, item `i` under the
      section `i`. */
  function ItemLeaves(e: JsonElement, path: string, n: nat): seq<Leaf>
    requires e.JArray? && n <= |e.items|
    decreases e, 0, n
  {
    if n == 0 then []
    else
      assert e.items[n - 1] in e.items;
      ItemLeaves(e, path, n - 1) + Leaves(e.items[n - 1], CombinePath(path, NatToString(n - 1)))
  }

  /** Stores leaves one by one; a key already present, in any case, is a
      `FormatException`. */
  function InsertAll(m: Data, leaves: seq<Leaf>): (r: Outcome<Data>)
    ensures r.Failure? ==> r.error == Format
    decreases |leaves|
  {
    if leaves == [] then Success(m)
    else if Fold(leaves[0].path) in m then Failure(Format)
    else InsertAll(m[Fold(leaves[0].path) := Entry(leaves[0].path, leaves[0].value)], leaves[1..])
  }

  /** The keys of `leaves` differ from each other and from those of `m`,
      case aside. */
  predicate FreshKeys(m: Data, leaves: seq<Leaf>) {
    && (forall i :: 0 <= i < |leaves| ==> Fold(leaves[i].path) !in m)
    && (forall i, j :: 0 <= i < j < |leaves| ==> Fold(leaves[i].path) != Fold(leaves[j].path))
  }

  /** The flattening: a tree with an `Undefined` element is refused,
      otherwise its leaves are stored in order. */
  function Flatten(e: JsonElement, path: string, m: Data): Outcome<Data> {
    if !Defined(e) then Failure(Format) else InsertAll(m, Leaves(e, path))
  }

  /** Storing leaves succeeds exactly when their keys are fresh. */
  lemma {:induction false} InsertAllSucceeds(m: Data, leaves: seq<Leaf>)
    ensures InsertAll(m, leaves).Success? <==> FreshKeys(m, leaves)
    decreases |leaves|
  {
    if leaves != [] {
      var l := leaves[0];
      var m' := m[Fold(l.path) := Entry(l.path, l.value)];
      var rest := leaves[1..];
      InsertAllSucceeds(m', rest);
      if Fold(l.path) !in m {
        FreshKeysStep(m, leaves);
      }
    }
  }

  lemma FreshKeysStep(m: Data, leaves: seq<Leaf>)
    requires leaves != [] && Fold(leaves[0].path) !in m
    ensures FreshKeys(m, leaves) <==>
              FreshKeys(m[Fold(leaves[0].path) := Entry(leaves[0].path, leaves[0].value)], leaves[1..])
  {
    var m', rest := m[Fold(leaves[0].path) := Entry(leaves[0].path, leaves[0].value)], leaves[1..];
    if FreshKeys(m', rest) {
      forall i | 0 <= i < |leaves|
        ensures Fold(leaves[i].path) !in m
      {
        if i > 0 {
          assert leaves[i] == rest[i - 1];
        }
      }
      forall i, j | 0 <= i < j < |leaves|
        ensures Fold(leaves[i].path) != Fold(leaves[j].path)
      {
        assert leaves[j] == rest[j - 1];
        if i > 0 {
          assert leaves[i] == rest[i - 1];
        }
      }
    }
    if FreshKeys(m, leaves) {
      forall i | 0 <= i < |rest|
        ensures Fold(rest[i].path) !in m'
      {
        assert rest[i] == leaves[i + 1];
      }
      forall i, j | 0 <= i < j < |rest|
        ensures Fold(rest[i].path) != Fold(rest[j].path)
      {
        assert rest[i] == leaves[i + 1] && rest[j] == leaves[j + 1];
      }
    }
  }

  /** Stored leaves leave the old entries as they were, put each leaf
      under its folded key, and add nothing else. */
  lemma {:induction false} InsertAllContents(m: Data, leaves: seq<Leaf>)
    requires InsertAll(m, leaves).Success?
    ensures forall k :: k in m ==> k in InsertAll(m, leaves).value && InsertAll(m, leaves).value[k] == m[k]
    ensures forall i :: 0 <= i < |leaves| ==>
              Fold(leaves[i].path) in InsertAll(m, leaves).value
              && InsertAll(m, leaves).value[Fold(leaves[i].path)] == Entry(leaves[i].path, leaves[i].value)
    ensures forall k :: k in InsertAll(m, leaves).value ==>
              k in m || exists i :: 0 <= i < |leaves| && k == Fold(leaves[i].path)
    decreases |leaves|
  {
    if leaves != [] {
      var l := leaves[0];
      var m' := m[Fold(l.path) := Entry(l.path, l.value)];
      var rest := leaves[1..];
      InsertAllContents(m', rest);
      var r := InsertAll(m, leaves).value;
      assert r == InsertAll(m', rest).value;
      forall i | 0 <= i < |leaves|
        ensures Fold(leaves[i].path) in r && r[Fold(leaves[i].path)] == Entry(leaves[i].path, leaves[i].value)
      {
        if i > 0 {
          assert leaves[i] == rest[i - 1];
        } else {
          InsertAllSucceeds(m', rest);
          assert Fold(l.path) in m';
        }
      }
      forall k | k in r
        ensures k in m || exists i :: 0 <= i < |leaves| && k == Fold(leaves[i].path)
      {
        if k !in m' {
          var i :| 0 <= i < |rest| && k == Fold(rest[i].path);
          assert rest[i] == leaves[i + 1];
        }
      }
    }
  }

  /** A failure while storing a prefix is a failure for the whole. */
  lemma InsertAllPrefixFails(m: Data, a: seq<Leaf>, b: seq<Leaf>)
    requires a <= b && InsertAll(m, a).Failure?
    ensures InsertAll(m, b).Failure?
  {
    assert b == a + b[|a|..];
    InsertAllAppend(m, a, b[|a|..]);
  }

  /** Storing `a` and then `b` is storing `a + b`. */
  lemma {:induction false} InsertAllAppend(m: Data, a: seq<Leaf>, b: seq<Leaf>)
    ensures InsertAll(m, a + b) == if InsertAll(m, a).Failure? then InsertAll(m, a) else InsertAll(InsertAll(m, a).value, b)
    decreases |a|
  {
    if a != [] {
      assert (a + b)[1..] == a[1..] + b;
      InsertAllAppend(m[Fold(a[0].path) := Entry(a[0].path, a[0].value)], a[1..], b);
    } else {
      assert a + b == b;
    }
  }

  /** A member whose subtree is flattened onto what the earlier members
      left extends the object's flattening by one member. */
  lemma MemberAdvance(e: JsonElement, path: string, n: nat, start: Data, mid: Data, after: Data)
    requires e.JObject? && n < |e.members|
    requires InsertAll(start, MemberLeaves(e, path, n)) == Success(mid)
    requires Flatten(e.members[n].value, CombinePath(path, e.members[n].name), mid) == Success(after)
    requires forall k :: 0 <= k < n ==> Defined(e.members[k].value)
    ensures forall k :: 0 <= k < n + 1 ==> Defined(e.members[k].value)
    ensures InsertAll(start, MemberLeaves(e, path, n + 1)) == Success(after)
  {
    InsertAllAppend(start, MemberLeaves(e, path, n), Leaves(e.members[n].value, CombinePath(path, e.members[n].name)));
  }

  /** A member whose subtree cannot be flattened fails the object. */
  lemma MemberFails(e: JsonElement, path: string, n: nat, start: Data, mid: Data)
    requires e.JObject? && n < |e.members|
    requires InsertAll(start, MemberLeaves(e, path, n)) == Success(mid)
    requires Flatten(e.members[n].value, CombinePath(path, e.members[n].name), mid).Failure?
    ensures Flatten(e, path, start) == Failure(Format)
  {
    if Defined(e.members[n].value) {
      InsertAllAppend(start, MemberLeaves(e, path, n), Leaves(e.members[n].value, CombinePath(path, e.members[n].name)));
      MemberLeavesPrefix(e, path, n + 1, |e.members|);
      InsertAllPrefixFails(start, MemberLeaves(e, path, n + 1), Leaves(e, path));
    } else {
      assert e.members[n] in e.members;
    }
  }

  /** All members flattened in turn are the object flattened. */
  lemma MembersDone(e: JsonElement, path: string, start: Data, result: Data)
    requires e.JObject?
    requires forall k :: 0 <= k < |e.members| ==> Defined(e.members[k].value)
    requires InsertAll(start, MemberLeaves(e, path, |e.members|)) == Success(result)
    ensures Flatten(e, path, start) == Success(result)
  {
  }

  lemma ItemAdvance(e: JsonElement, path: string, n: nat, start: Data, mid: Data, after: Data)
    requires e.JArray? && n < |e.items|
    requires InsertAll(start, ItemLeaves(e, path, n)) == Success(mid)
    requires Flatten(e.items[n], CombinePath(path, NatToString(n)), mid) == Success(after)
    requires forall k :: 0 <= k < n ==> Defined(e.items[k])
    ensures forall k :: 0 <= k < n + 1 ==> Defined(e.items[k])
    ensures InsertAll(start, ItemLeaves(e, path, n + 1)) == Success(after)
  {
    InsertAllAppend(start, ItemLeaves(e, path, n), Leaves(e.items[n], CombinePath(path, NatToString(n))));
  }

  lemma ItemFails(e: JsonElement, path: string, n: nat, start: Data, mid: Data)
    requires e.JArray? && n < |e.items|
    requires InsertAll(start, ItemLeaves(e, path, n)) == Success(mid)
    requires Flatten(e.items[n], CombinePath(path, NatToString(n)), mid).Failure?
    ensures Flatten(e, path, start) == Failure(Format)
  {
    if Defined(e.items[n]) {
      InsertAllAppend(start, ItemLeaves(e, path, n), Leaves(e.items[n], CombinePath(path, NatToString(n))));
      ItemLeavesPrefix(e, path, n + 1, |e.items|);
      InsertAllPrefixFails(start, ItemLeaves(e, path, n + 1), Leaves(e, path));
    } else {
      assert e.items[n] in e.items;
    }
  }

  lemma ItemsDone(e: JsonElement, path: string, start: Data, result: Data)
    requires e.JArray?
    requires forall k :: 0 <= k < |e.items| ==> Defined(e.items[k])
    requires InsertAll(start, ItemLeaves(e, path, |e.items|)) == Success(result)
    ensures Flatten(e, path, start) == Success(result)
  {
  }

  /** The leaves of the first `n` members are a prefix of those of the
      first `k`. */
  lemma {:induction false} MemberLeavesPrefix(e: JsonElement, path: string, n: nat, k: nat)
    requires e.JObject? && n <= k <= |e.members|
    ensures MemberLeaves(e, path, n) <= MemberLeaves(e, path, k)
    decreases k - n
  {
    if n < k {
      MemberLeavesPrefix(e, path, n, k - 1);
      var m := e.members[k - 1];
      assert MemberLeaves(e, path, k) == MemberLeaves(e, path, k - 1) + Leaves(m.value, CombinePath(path, m.name));
    }
  }

  /** The leaves of the first `n` items are a prefix of those of the
      first `k`. */
  lemma {:induction false} ItemLeavesPrefix(e: JsonElement, path: string, n: nat, k: nat)
    requires e.JArray? && n <= k <= |e.items|
    ensures ItemLeaves(e, path, n) <= ItemLeaves(e, path, k)
    decreases k - n
  {
    if n < k {
      ItemLeavesPrefix(e, path, n, k - 1);
      assert ItemLeaves(e, path, k) == ItemLeaves(e, path, k - 1) + Leaves(e.items[k - 1], CombinePath(path, NatToString(k - 1)));
    }
  }

  /** The dictionary the visit fills: `Dictionary<string, string?>` with
      `StringComparer.OrdinalIgnoreCase`. */
  class ConfigurationData {
    var entries: Data

    constructor ()
      ensures entries == map[]
    {
      entries := map[];
    }

    /** Whether a key is present, whatever its case. */
    function ContainsKey(key: string): (r: bool)
      reads this
      ensures r <==> Fold(key) in entries
    {
      Fold(key) in entries
    }

    /** `container[key] = value`. */
    method Set(key: string, value: string)
      modifies this
      ensures entries == old(entries)[Fold(key) := Entry(key, value)]
    {
      entries := entries[Fold(key) := Entry(key, value)];
    }
  }

  /** `VisitJsonElement`: walks the tree, storing each scalar at its path;
      a duplicate key or an `Undefined` element is a `FormatException`.
      Success leaves the dictionary as `Flatten` says. */
  method VisitJsonElement(element: JsonElement, path: string, container: ConfigurationData) returns (r: Outcome<()>)
    modifies container
    ensures Flatten(element, path, old(container.entries)).Failure? ==> r == Failure(Format)
    ensures Flatten(element, path, old(container.entries)).Success? ==>
              r.Success? && container.entries == Flatten(element, path, old(container.entries)).value
    decreases element, 2
  {
    match element {
      case JObject(_) =>
        r := VisitMembers(element, path, container);
      case JArray(_) =>
        r := VisitItems(element, path, container);
      case JUndefined =>
        r := Failure(Format);
      case _ =>
        StoreOne(element, path, container.entries);
        if container.ContainsKey(path) {
          return Failure(Format);
        }
        container.Set(path, ValueText(element));
        r := Success(());
    }
  }

  /** A scalar is one leaf: it fails on a key already present, else it
      is stored. */
  lemma StoreOne(e: JsonElement, path: string, m: Data)
    requires IsScalar(e)
    ensures Flatten(e, path, m) == if Fold(path) in m then Failure(Format)
                                   else Success(m[Fold(path) := Entry(path, ValueText(e))])
  {
    var leaves := [Leaf(path, ValueText(e))];
    assert Leaves(e, path) == leaves;
    if Fold(path) !in m {
      assert leaves[1..] == [];
      assert InsertAll(m, leaves) == InsertAll(m[Fold(path) := Entry(path, ValueText(e))], []);
    }
  }

  /** The first `n` members are defined and were stored onto `start`,
      leaving `entries`. */
  predicate MembersVisited(e: JsonElement, path: string, n: nat, start: Data, entries: Data)
    requires e.JObject? && n <= |e.members|
  {
    && (forall k :: 0 <= k < n ==> Defined(e.members[k].value))
    && InsertAll(start, MemberLeaves(e, path, n)) == Success(entries)
  }

  /** The first `n` items are defined and were stored onto `start`,
      leaving `entries`. */
  predicate ItemsVisited(e: JsonElement, path: string, n: nat, start: Data, entries: Data)
    requires e.JArray? && n <= |e.items|
  {
    && (forall k :: 0 <= k < n ==> Defined(e.items[k]))
    && InsertAll(start, ItemLeaves(e, path, n)) == Success(entries)
  }

  /** The object case: members in order, each under `path:name`. */
  method VisitMembers(element: JsonElement, path: string, container: ConfigurationData) returns (r: Outcome<()>)
    requires element.JObject?
    modifies container
    ensures Flatten(element, path, old(container.entries)).Failure? ==> r == Failure(Format)
    ensures Flatten(element, path, old(container.entries)).Success? ==>
              r.Success? && container.entries == Flatten(element, path, old(container.entries)).value
    decreases element, 1
  {
    ghost var start := container.entries;
    ghost var whole := Flatten(element, path, start);
    var i := 0;
    while i < |element.members|
      invariant 0 <= i <= |element.members|
      invariant MembersVisited(element, path, i, start, container.entries)
    {
      var child := VisitMember(element, path, i, container, start);
      if child.Failure? {
        assert whole == Failure(Format);
        return Failure(Format);
      }
      i := i + 1;
    }
    MembersDone(element, path, start, container.entries);
    assert whole == Success(container.entries);
    return Success(());
  }

  /** One turn of the object case: member `i` flattened onto what the
      members before it left. */
  method VisitMember(element: JsonElement, path: string, i: nat, container: ConfigurationData, ghost start: Data)
    returns (r: Outcome<()>)
    requires element.JObject? && i < |element.members|
    requires MembersVisited(element, path, i, start, container.entries)
    modifies container
    ensures r.Failure? ==> Flatten(element, path, start) == Failure(Format)
    ensures r.Success? ==> MembersVisited(element, path, i + 1, start, container.entries)
    decreases element, 0
  {
    var member := element.members[i];
    assert member in element.members;
    ghost var mid := container.entries;
    r := VisitJsonElement(member.value, CombinePath(path, member.name), container);
    if r.Failure? {
      MemberFails(element, path, i, start, mid);
    } else {
      MemberAdvance(element, path, i, start, mid, container.entries);
    }
  }

  /** The array case: items in order, item `i` under `path:i`. */
  method VisitItems(element: JsonElement, path: string, container: ConfigurationData) returns (r: Outcome<()>)
    requires element.JArray?
    modifies container
    ensures Flatten(element, path, old(container.entries)).Failure? ==> r == Failure(Format)
    ensures Flatten(element, path, old(container.entries)).Success? ==>
              r.Success? && container.entries == Flatten(element, path, old(container.entries)).value
    decreases element, 1
  {
    ghost var start := container.entries;
    var arrayIndex := 0;
    while arrayIndex < |element.items|
      invariant 0 <= arrayIndex <= |element.items|
      invariant ItemsVisited(element, path, arrayIndex, start, container.entries)
    {
      var child := VisitItem(element, path, arrayIndex, container, start);
      if child.Failure? {
        return Failure(Format);
      }
      arrayIndex := arrayIndex + 1;
    }
    ItemsDone(element, path, start, container.entries);
    return Success(());
  }

  /** One turn of the array case: item `i` flattened under `path:i` onto
      what the items before it left. */
  method VisitItem(element: JsonElement, path: string, i: nat, container: ConfigurationData, ghost start: Data)
    returns (r: Outcome<()>)
    requires element.JArray? && i < |element.items|
    requires ItemsVisited(element, path, i, start, container.entries)
    modifies container
    ensures r.Failure? ==> Flatten(element, path, start) == Failure(Format)
    ensures r.Success? ==> ItemsVisited(element, path, i + 1, start, container.entries)
    decreases element, 0
  {
    var item := element.items[i];
    assert item in element.items;
    ghost var mid := container.entries;
    r := VisitJsonElement(item, CombinePath(path, NatToString(i)), container);
    if r.Failure? {
      ItemFails(element, path, i, start, mid);
    } else {
      ItemAdvance(element, path, i, start, mid, container.entries);
    }
  }

  /** `TryParseToJsonDocument`: a reader over the whole content (its
      final block), with trailing commas and comments allowed. Such a
      reader either reads a document or throws `JsonException`; it never
      answers "not yet". Blank content holds no JSON token, so it throws
      there too. `parseDocument` is the reader on other content, `None`
      standing for the exception. */
  function ReadDocument(content: string, parseDocument: string -> Option<JsonElement>): (r: Outcome<JsonElement>)
    ensures r.Failure? ==> r.error == Json
    ensures r.Success? <==> !IsBlank(content) && parseDocument(content).Some?
    ensures r.Success? ==> r.value == parseDocument(content).value
  {
    if IsBlank(content) then Failure(Json)
    else match parseDocument(content)
      case None => Failure(Json)
      case Some(root) => Success(root)
  }

  /** `CanParse`: blank content is accepted; otherwise the reader is run,
      and its exception is passed on. */
  function CanParse(content: string, parseDocument: string -> Option<JsonElement>): (r: Outcome<bool>)
    ensures r != Success(false)
    ensures r.Success? <==> IsBlank(content) || parseDocument(content).Some?
    ensures r.Failure? ==> r.error == Json
  {
    if IsBlank(content) then Success(true)
    else match ReadDocument(content, parseDocument)
      case Failure(e) => Failure(e)
      case Success(_) => Success(true)
  }

  /** What `Parse` returns: the reader's exception, or else the flattening
      of the root at the empty path. */
  function ParseSpec(content: string, parseDocument: string -> Option<JsonElement>): Outcome<Data> {
    match ReadDocument(content, parseDocument)
    case Failure(e) => Failure(e)
    case Success(root) => Flatten(root, "", map[])
  }

  /** `Parse`: a fresh case-insensitive dictionary filled by the visit. */
  method Parse(content: string, parseDocument: string -> Option<JsonElement>) returns (r: Outcome<Data>)
    ensures r == ParseSpec(content, parseDocument)
  {
    var data := new ConfigurationData();
    var document := ReadDocument(content, parseDocument);
    if document.Failure? {
      return Failure(document.error);
    }
    var visited := VisitJsonElement(document.value, "", data);
    if visited.Failure? {
      return Failure(visited.error);
    }
    return Success(data.entries);
  }

  /** A read document yields a dictionary exactly when it has no
      `Undefined` element and no two leaves share a key, case aside; then
      every leaf is found under its key and nothing else is there. */
  lemma ParseResult(content: string, parseDocument: string -> Option<JsonElement>, root: JsonElement)
    requires !IsBlank(content) && parseDocument(content) == Some(root)
    ensures ParseSpec(content, parseDocument).Success? <==> Defined(root) && FreshKeys(map[], Leaves(root, ""))
    ensures ParseSpec(content, parseDocument).Success? ==>
              var data, leaves := ParseSpec(content, parseDocument).value, Leaves(root, "");
              && (forall i :: 0 <= i < |leaves| ==>
                    Fold(leaves[i].path) in data && data[Fold(leaves[i].path)] == Entry(leaves[i].path, leaves[i].value))
              && (forall k :: k in data ==> exists i :: 0 <= i < |leaves| && k == Fold(leaves[i].path))
  {
    InsertAllSucceeds(map[], Leaves(root, ""));
    if ParseSpec(content, parseDocument).Success? {
      InsertAllContents(map[], Leaves(root, ""));
    }
  }

  /** Content the reader cannot read is a `JsonException` from both
      `CanParse` and `Parse`, and blank content, which `CanParse`
      accepts, is one from `Parse`. */
  lemma UnreadableThrows(content: string, parseDocument: string -> Option<JsonElement>)
    ensures IsBlank(content) ==> CanParse(content, parseDocument) == Success(true)
                                 && ParseSpec(content, parseDocument) == Failure(Json)
    ensures !IsBlank(content) && parseDocument(content).None? ==>
              CanParse(content, parseDocument) == Failure(Json) && ParseSpec(content, parseDocument) == Failure(Json)
  {
  }

  /** Array items are stored under `path:0`, `path:1`, … in order. */
  lemma {:induction false} ScalarItemPaths(e: JsonElement, path: string, n: nat)
    requires e.JArray? && n <= |e.items|
    requires forall i :: 0 <= i < |e.items| ==> IsScalar(e.items[i])
    ensures |ItemLeaves(e, path, n)| == n
    ensures forall i :: 0 <= i < n ==>
              ItemLeaves(e, path, n)[i] == Leaf(CombinePath(path, NatToString(i)), ValueText(e.items[i]))
  {
    if n > 0 {
      ScalarItemPaths(e, path, n - 1);
      var key := CombinePath(path, NatToString(n - 1));
      var prev, all := ItemLeaves(e, path, n - 1), ItemLeaves(e, path, n);
      assert Leaves(e.items[n - 1], key) == [Leaf(key, ValueText(e.items[n - 1]))];
      assert all == prev + [Leaf(key, ValueText(e.items[n - 1]))];
      forall i | 0 <= i < n
        ensures all[i] == Leaf(CombinePath(path, NatToString(i)), ValueText(e.items[i]))
      {
        if i < n - 1 {
          assert all[i] == prev[i];
        }
      }
    }
  }

  /** Object members with scalar values are stored under `path:name`, in
      member order. */
  lemma {:induction false} ScalarMemberPaths(e: JsonElement, path: string, n: nat)
    requires e.JObject? && n <= |e.members|
    requires forall i :: 0 <= i < |e.members| ==> IsScalar(e.members[i].value)
    ensures |MemberLeaves(e, path, n)| == n
    ensures forall i :: 0 <= i < n ==>
              MemberLeaves(e, path, n)[i] == Leaf(CombinePath(path, e.members[i].name), ValueText(e.members[i].value))
  {
    if n > 0 {
      ScalarMemberPaths(e, path, n - 1);
      var m := e.members[n - 1];
      var key := CombinePath(path, m.name);
      var prev, all := MemberLeaves(e, path, n - 1), MemberLeaves(e, path, n);
      assert Leaves(m.value, key) == [Leaf(key, ValueText(m.value))];
      assert all == prev + [Leaf(key, ValueText(m.value))];
      forall i | 0 <= i < n
        ensures all[i] == Leaf(CombinePath(path, e.members[i].name), ValueText(e.members[i].value))
      {
        if i < n - 1 {
          assert all[i] == prev[i];
        }
      }
    }
  }

  /** Two members whose names differ only in case collide: the dictionary
      ignores case, so the document is refused. */
  lemma CaseCollision(name1: string, name2: string, v1: JsonElement, v2: JsonElement)
    requires Fold(name1) == Fold(name2) && IsScalar(v1) && IsScalar(v2)
    ensures Flatten(JObject([JsonProperty(name1, v1), JsonProperty(name2, v2)]), "", map[]) == Failure(Format)
  {
    var e := JObject([JsonProperty(name1, v1), JsonProperty(name2, v2)]);
    ScalarMemberPaths(e, "", 2);
    InsertAllSucceeds(map[], Leaves(e, ""));
  }

  /** The keys of a flat array of scalars never collide: item keys differ
      in their decimal index, which case folding leaves alone. */
  lemma ScalarArrayFlattens(items: seq<JsonElement>, path: string)
    requires forall i :: 0 <= i < |items| ==> IsScalar(items[i])
    ensures Flatten(JArray(items), path, map[]).Success?
  {
    var e := JArray(items);
    ScalarItemPaths(e, path, |items|);
    var leaves := ItemLeaves(e, path, |items|);
    forall i, j | 0 <= i < j < |leaves|
      ensures Fold(leaves[i].path) != Fold(leaves[j].path)
    {
      IndexKeysDiffer(path, i, j);
    }
    assert FreshKeys(map[], leaves);
    InsertAllSucceeds(map[], leaves);
    assert Leaves(e, path) == leaves;
    assert Defined(e);
  }

  /** Digits are unchanged by case folding. */
  lemma FoldDigits(n: nat)
    ensures ToLower(NatToString(n)) == NatToString(n)
  {
    var s := NatToString(n);
    assert forall k :: 0 <= k < |s| ==> ToLower(s)[k] == s[k];
  }

  lemma IndexKeysDiffer(path: string, i: nat, j: nat)
    requires i != j
    ensures Fold(CombinePath(path, NatToString(i))) != Fold(CombinePath(path, NatToString(j)))
  {
    NatToStringInjective(i, j);
    FoldDigits(i);
    FoldDigits(j);
    if !IsBlank(path) {
      ToLowerAppend(path + ":", NatToString(i));
      ToLowerAppend(path + ":", NatToString(j));
      var pi, pj := ToLower(path + ":") + NatToString(i), ToLower(path + ":") + NatToString(j);
      assert pi[|path| + 1..] == NatToString(i);
      assert pj[|path| + 1..] == NatToString(j);
    }
  }
}
