/** The identity of a configuration (namespace, group, data id), its unique
    key, the descriptor that carries content and hash, and the equality
    comparer the client's dictionaries use. */
module Descriptors {
  import opened Wrappers
  import opened Errors
  import opened Text

  /** The group a descriptor gets when the caller names none. */
  const DEFAULT_GROUP: string := "DEFAULT_GROUP"

  /** What every uniquely identified configuration exposes. */
  datatype UniqueConfiguration = UniqueConfiguration(namespace: string, group: string, dataId: string)

  /** The unique key `namespace+group+dataId`. */
  function UniqueKey(c: UniqueConfiguration): string {
    c.namespace + "+" + c.group + "+" + c.dataId
  }

  /** A configuration with the content and hash last seen for it. */
  datatype Descriptor = Descriptor(namespace: string, dataId: string, group: string, content: Option<string>, hash: Option<string>) {
    /** What the constructor guarantees of every descriptor. */
    predicate Valid() {
      !IsBlank(namespace) && !IsBlank(dataId)
    }

    function Identity(): UniqueConfiguration {
      UniqueConfiguration(namespace, group, dataId)
    }
  }

  /** The descriptor constructor: namespace and data id must not be null or
      white space; a null group becomes the empty group. */
  function Create(namespace: Option<string>, dataId: Option<string>, group: Option<string>,
                  content: Option<string>, hash: Option<string>): (r: Outcome<Descriptor>)
    ensures r.Success? <==> !IsNullOrWhiteSpace(namespace) && !IsNullOrWhiteSpace(dataId)
    ensures IsNullOrWhiteSpace(namespace) ==> r == Failure(ArgumentNull("namespace"))
    ensures !IsNullOrWhiteSpace(namespace) && IsNullOrWhiteSpace(dataId) ==> r == Failure(ArgumentNull("dataId"))
    ensures r.Success? ==> r.value.Valid() && r.value.Identity() == UniqueConfiguration(namespace.value, group.GetOr(""), dataId.value)
    ensures r.Success? ==> r.value.content == content && r.value.hash == hash
  {
    if IsNullOrWhiteSpace(namespace) then Failure(ArgumentNull("namespace"))
    else if IsNullOrWhiteSpace(dataId) then Failure(ArgumentNull("dataId"))
    else Success(Descriptor(namespace.value, dataId.value, group.GetOr(""), content, hash))
  }

  /** The constructor called with only a namespace and a data id: the
      group takes its default `DEFAULT_GROUP`, and there is no content and
      no hash. */
  function CreateDefault(namespace: Option<string>, dataId: Option<string>): (r: Outcome<Descriptor>)
    ensures r.Success? <==> !IsNullOrWhiteSpace(namespace) && !IsNullOrWhiteSpace(dataId)
    ensures r.Failure? ==> r == Create(namespace, dataId, None, None, None)
    ensures r.Success? ==> && r.value.Valid()
                           && r.value.Identity() == UniqueConfiguration(namespace.value, DEFAULT_GROUP, dataId.value)
                           && r.value.content.None? && r.value.hash.None?
  {
    Create(namespace, dataId, Some(DEFAULT_GROUP), None, None)
  }

  /** `WithContent(content)`: a new descriptor, built by the constructor, with
      the same identity and hash; it never throws for a valid descriptor. */
  function WithContent(d: Descriptor, content: Option<string>): (r: Descriptor)
    requires d.Valid()
    ensures Create(Some(d.namespace), Some(d.dataId), Some(d.group), content, d.hash) == Success(r)
    ensures r.Valid() && r.Identity() == d.Identity() && r.hash == d.hash && r.content == content
  {
    d.(content := content)
  }

  /** `WithContent(content, hash)`: as `WithContent`, replacing the hash too. */
  function WithContentAndHash(d: Descriptor, content: Option<string>, hash: Option<string>): (r: Descriptor)
    requires d.Valid()
    ensures Create(Some(d.namespace), Some(d.dataId), Some(d.group), content, hash) == Success(r)
    ensures r.Valid() && r.Identity() == d.Identity() && r.hash == hash && r.content == content
  {
    d.(content := content, hash := hash)
  }

  /** The position of the first `c` in `s`, or `|s|` when there is none. */
  function IndexOf(s: string, c: char): (k: nat)
    ensures k <= |s|
  {
    if s == [] || s[0] == c then 0 else 1 + IndexOf(s[1..], c)
  }

  lemma {:induction false} IndexOfAfterPrefix(x: string, r: string)
    requires '+' !in x
    ensures IndexOf(x + "+" + r, '+') == |x|
  {
    if x != [] {
      assert (x + "+" + r)[1..] == x[1..] + "+" + r;
      IndexOfAfterPrefix(x[1..], r);
    }
  }

  lemma PrefixBeforeSeparator(x: string, r: string, y: string, s: string)
    requires '+' !in x && '+' !in y
    requires x + "+" + r == y + "+" + s
    ensures x == y && r == s
  {
    var u := x + "+" + r;
    IndexOfAfterPrefix(x, r);
    IndexOfAfterPrefix(y, s);
    assert x == u[..|x|] == y;
    assert r == u[|x| + 1..] == s;
  }

  /** Names without `+` never share a unique key: the key identifies the
      configuration. */
  lemma UniqueKeyInjective(a: UniqueConfiguration, b: UniqueConfiguration)
    requires '+' !in a.namespace && '+' !in a.group && '+' !in b.namespace && '+' !in b.group
    ensures UniqueKey(a) == UniqueKey(b) <==> a == b
  {
    if UniqueKey(a) == UniqueKey(b) {
      assert UniqueKey(a) == a.namespace + "+" + (a.group + "+" + a.dataId);
      assert UniqueKey(b) == b.namespace + "+" + (b.group + "+" + b.dataId);
      PrefixBeforeSeparator(a.namespace, a.group + "+" + a.dataId, b.namespace, b.group + "+" + b.dataId);
      PrefixBeforeSeparator(a.group, a.dataId, b.group, b.dataId);
    }
  }

  /** With a `+` inside a name, two different configurations share a key. */
  lemma UniqueKeyCollision()
    ensures UniqueConfiguration("a+b", "c", "d") != UniqueConfiguration("a", "b+c", "d")
    ensures UniqueKey(UniqueConfiguration("a+b", "c", "d")) == UniqueKey(UniqueConfiguration("a", "b+c", "d"))
  {
  }

  /** The comparer's `Equals`: both present and the hash codes of their unique
      keys equal. `hashCode` stands for `string.GetHashCode`. */
  predicate ComparerEquals(x: Option<UniqueConfiguration>, y: Option<UniqueConfiguration>, hashCode: string -> int) {
    x.Some? && y.Some? && hashCode(UniqueKey(x.value)) == hashCode(UniqueKey(y.value))
  }

  /** The comparer's `GetHashCode`. */
  function ComparerHashCode(x: UniqueConfiguration, hashCode: string -> int): int {
    hashCode(UniqueKey(x))
  }

  /** The comparer is an equivalence on present values, never equates null,
      and agrees with its hash code, as a dictionary comparer must; the
      content and hash of a descriptor play no part. */
  lemma ComparerLaws(x: UniqueConfiguration, y: UniqueConfiguration, z: UniqueConfiguration, hashCode: string -> int)
    ensures ComparerEquals(Some(x), Some(x), hashCode)
    ensures ComparerEquals(Some(x), Some(y), hashCode) == ComparerEquals(Some(y), Some(x), hashCode)
    ensures ComparerEquals(Some(x), Some(y), hashCode) && ComparerEquals(Some(y), Some(z), hashCode) ==> ComparerEquals(Some(x), Some(z), hashCode)
    ensures !ComparerEquals(None, Some(x), hashCode) && !ComparerEquals(Some(x), None, hashCode)
    ensures ComparerEquals(Some(x), Some(y), hashCode) <==> ComparerHashCode(x, hashCode) == ComparerHashCode(y, hashCode)
    ensures UniqueKey(x) == UniqueKey(y) ==> ComparerEquals(Some(x), Some(y), hashCode)
  {
  }
}
