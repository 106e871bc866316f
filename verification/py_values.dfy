/** The Python operations the application applies to decoded JSON values:
    truthiness, `len`, the `in` operator with a string on the left,
    `dict.get`, iteration and `", ".join`. A `Json` object stands for the
    `dict` Python builds from it: its keys in order of first appearance,
    each with the value of its last occurrence. */
module PyValues {
  import opened Text
  import opened Wrappers
  import opened Json

  /** Python's `bool(v)`. */
  predicate Truthy(v: Json) {
    match v
    case JNull => false
    case JBool(b) => b
    case JInt(i) => i != 0
    case JString(s) => s != ""
    case JArray(items) => items != []
    case JObject(members) => members != []
  }

  /** `type(v).__name__` for the value `json.loads` produces. */
  function TypeName(v: Json): string {
    match v
    case JNull => "NoneType"
    case JBool(_) => "bool"
    case JInt(_) => "int"
    case JString(_) => "str"
    case JArray(_) => "list"
    case JObject(_) => "dict"
  }

  /** Whether some member carries `key`. */
  predicate HasKey(members: seq<Member>, key: string) {
    exists i :: 0 <= i < |members| && members[i].key == key
  }

  /** The keys of the dict, in order of first appearance. */
  function Keys(members: seq<Member>): (r: seq<string>)
    ensures forall k :: k in r <==> HasKey(members, k)
    ensures forall i, j :: 0 <= i < j < |r| ==> r[i] != r[j]
  {
    if |members| == 0 then []
    else
      var front := Keys(members[..|members| - 1]);
      var last := members[|members| - 1].key;
      assert forall k :: HasKey(members, k) <==> HasKey(members[..|members| - 1], k) || k == last by {
        forall k | HasKey(members, k) && k != last
          ensures HasKey(members[..|members| - 1], k)
        {
          var i :| 0 <= i < |members| && members[i].key == k;
          assert members[..|members| - 1][i].key == k;
        }
        forall k | HasKey(members[..|members| - 1], k)
          ensures HasKey(members, k)
        {
          var i :| 0 <= i < |members| - 1 && members[..|members| - 1][i].key == k;
          assert members[i].key == k;
        }
      }
      if last in front then front else front + [last]
  }

  /** `needle` occurs in `hay` starting at position `i`. */
  predicate OccursAt(needle: string, hay: string, i: int) {
    0 <= i && i + |needle| <= |hay| && hay[i..i + |needle|] == needle
  }

  /** `needle` occurs in `hay` at some position. */
  predicate IsSubstring(needle: string, hay: string) {
    exists i :: 0 <= i <= |hay| && OccursAt(needle, hay, i)
  }

  /** Python's `key in container` for a string `key`: a dict key, a list
      element equal to the string, or a substring; other values raise. */
  function Contains(container: Json, key: string): (r: Result<bool>)
    ensures container.JObject? ==> r == Ok(HasKey(container.members, key))
    ensures container.JString? ==> r == Ok(IsSubstring(key, container.s))
    ensures container.JArray? ==> r == Ok(JString(key) in container.items)
    ensures r.Err? <==> !(container.JObject? || container.JString? || container.JArray?)
  {
    match container
    case JObject(members) => Ok(HasKey(members, key))
    case JString(s) => Ok(IsSubstring(key, s))
    case JArray(items) => Ok(JString(key) in items)
    case _ => Err("argument of type '" + TypeName(container) + "' is not iterable")
  }

  /** Python's `len(v)`. */
  function Len(v: Json): (r: Result<nat>)
    ensures r.Ok? <==> (v.JString? || v.JArray? || v.JObject?)
    ensures r.Ok? ==> (r.value == 0 <==> !Truthy(v))
  {
    match v
    case JString(s) => Ok(|s|)
    case JArray(items) => Ok(|items|)
    case JObject(members) =>
      var keys := Keys(members);
      assert members != [] ==> members[0].key in keys;
      Ok(|keys|)
    case _ => Err("object of type '" + TypeName(v) + "' has no len()")
  }

  /** Python's `v.get(key, default)`: only dicts have `get`. */
  function Get(v: Json, key: string, default: Json): (r: Result<Json>)
    ensures r.Err? <==> !v.JObject?
    ensures v.JObject? && !HasKey(v.members, key) ==> r == Ok(default)
    ensures v.JObject? && HasKey(v.members, key) ==>
      r.Ok? && exists i :: 0 <= i < |v.members| && v.members[i] == Member(key, r.value)
  {
    match v
    case JObject(members) =>
      Ok(match Lookup(members, key) case Some(x) => x case None => default)
    case _ => Err("'" + TypeName(v) + "' object has no attribute 'get'")
  }

  /** The items `for x in v` visits: the characters of a string, the
      elements of a list, the keys of a dict. Other values raise. */
  function Iterate(v: Json): (r: Result<seq<Json>>)
    ensures r.Ok? <==> (v.JString? || v.JArray? || v.JObject?)
    ensures v.JArray? ==> r == Ok(v.items)
  {
    match v
    case JString(s) => Ok(seq(|s|, i requires 0 <= i < |s| => JString([s[i]])))
    case JArray(items) => Ok(items)
    case JObject(members) =>
      var keys := Keys(members);
      Ok(seq(|keys|, i requires 0 <= i < |keys| => JString(keys[i])))
    case _ => Err("'" + TypeName(v) + "' object is not iterable")
  }

  /** `[x for x in items if x]`. */
  function KeepTruthy(items: seq<Json>): (r: seq<Json>)
    ensures |r| <= |items|
    ensures forall x :: x in r <==> x in items && Truthy(x)
  {
    if |items| == 0 then []
    else (if Truthy(items[0]) then [items[0]] else []) + KeepTruthy(items[1..])
  }

  /** Python's `sep.join(items)`: every item must be a string; the error
      names the position of the first one that is not. */
  function JoinStrs(items: seq<Json>, sep: string): (r: Result<string>)
    ensures r.Ok? <==> forall i :: 0 <= i < |items| ==> items[i].JString?
  {
    JoinFrom(items, sep, 0)
  }

  function JoinFrom(items: seq<Json>, sep: string, position: nat): (r: Result<string>)
    ensures r.Ok? <==> forall i :: 0 <= i < |items| ==> items[i].JString?
    decreases |items|
  {
    if |items| == 0 then Ok("")
    else if !items[0].JString? then
      Err("sequence item " + IntToString(position) + ": expected str instance, "
        + TypeName(items[0]) + " found")
    else
      match JoinFrom(items[1..], sep, position + 1)
      case Err(e) => Err(e)
      case Ok(rest) =>
        assert forall i :: 1 <= i < |items| ==> items[i] == items[1..][i - 1];
        Ok(if |items| == 1 then items[0].s else items[0].s + sep + rest)
  }

  /** The strings of a list of JSON strings. */
  function Strs(items: seq<Json>): (r: seq<string>)
    requires forall i :: 0 <= i < |items| ==> items[i].JString?
    ensures |r| == |items| && forall i :: 0 <= i < |items| ==> items[i] == JString(r[i])
  {
    seq(|items|, i requires 0 <= i < |items| => items[i].s)
  }

  /** Joining strings is `Join` on their contents. */
  lemma {:induction false} JoinStrsJoin(items: seq<Json>, sep: string)
    requires forall i :: 0 <= i < |items| ==> items[i].JString?
    ensures JoinStrs(items, sep) == Ok(Join(Strs(items), sep))
  {
    JoinFromJoin(items, sep, 0);
  }

  lemma {:induction false} JoinFromJoin(items: seq<Json>, sep: string, position: nat)
    requires forall i :: 0 <= i < |items| ==> items[i].JString?
    ensures JoinFrom(items, sep, position) == Ok(Join(Strs(items), sep))
    decreases |items|
  {
    if |items| > 0 {
      JoinFromJoin(items[1..], sep, position + 1);
      assert Strs(items)[1..] == Strs(items[1..]);
    }
  }
}
