/**
 * JSON documents as trees. The text encoding of a tree (`json.Marshal`'s
 * bytes) is not part of this model; objects keep their members in the order
 * the encoder writes them, which for a Go struct is field order.
 */
module Json {
  import opened Wrappers

  datatype Json = JString(s: string) | JNumber(n: int) | JObject(members: seq<(string, Json)>)

  /** The member names of an object, in order (none for a scalar). */
  function Keys(j: Json): (ks: seq<string>)
    ensures j.JObject? ==> |ks| == |j.members|
    ensures j.JObject? ==> forall i :: 0 <= i < |ks| ==> ks[i] == j.members[i].0
  {
    if j.JObject? then KeysOf(j.members) else []
  }

  function KeysOf(ms: seq<(string, Json)>): (ks: seq<string>)
    ensures |ks| == |ms|
    ensures forall i :: 0 <= i < |ks| ==> ks[i] == ms[i].0
  {
    if ms == [] then [] else [ms[0].0] + KeysOf(ms[1..])
  }

  /** The value of the first member called `key`, if there is one. */
  function Member(j: Json, key: string): Option<Json>
  {
    if j.JObject? then Find(j.members, key) else None
  }

  function Find(ms: seq<(string, Json)>, key: string): Option<Json>
  {
    if ms == [] then None
    else if ms[0].0 == key then Some(ms[0].1)
    else Find(ms[1..], key)
  }

  /** A member is found exactly when one has that name, and then it is the first such member. */
  lemma {:induction false} FindSpec(ms: seq<(string, Json)>, key: string)
    ensures Find(ms, key).Some? <==> exists i :: 0 <= i < |ms| && ms[i].0 == key
    ensures Find(ms, key).Some? ==>
              exists i :: 0 <= i < |ms| && ms[i] == (key, Find(ms, key).value) &&
                          forall k :: 0 <= k < i ==> ms[k].0 != key
    decreases |ms|
  {
    if ms != [] && ms[0].0 != key {
      FindSpec(ms[1..], key);
      assert forall i :: 1 <= i < |ms| ==> ms[i] == ms[1..][i - 1];
      if Find(ms, key).Some? {
        var i :| 0 <= i < |ms[1..]| && ms[1..][i] == (key, Find(ms, key).value) &&
                 forall k :: 0 <= k < i ==> ms[1..][k].0 != key;
        assert ms[i + 1] == (key, Find(ms, key).value);
        assert forall k :: 0 <= k < i + 1 ==> ms[k].0 != key;
      }
    } else if ms != [] {
      assert ms[0] == (key, Find(ms, key).value);
    }
  }

  /** Reading a member name after members with other names. */
  lemma FindAfter(ms: seq<(string, Json)>, n: nat, key: string)
    requires n < |ms| && ms[n].0 == key
    requires forall k :: 0 <= k < n ==> ms[k].0 != key
    ensures Find(ms, key) == Some(ms[n].1)
    decreases n
  {
    if n > 0 {
      FindAfter(ms[1..], n - 1, key);
    }
  }

  /** A name no member has is not found. */
  lemma FindAbsent(ms: seq<(string, Json)>, key: string)
    requires forall k :: 0 <= k < |ms| ==> ms[k].0 != key
    ensures Find(ms, key) == None
  {
    FindSpec(ms, key);
  }

  /** The string held by a string member. */
  function StringMember(j: Json, key: string): Option<string>
  {
    match Member(j, key)
    case Some(JString(s)) => Some(s)
    case _ => None
  }
}
