/**
 * JSON values as the scripts build and exchange them. Objects keep their
 * members in insertion order, as a JavaScript object literal does.
 */
module Json {
  import opened Results

  datatype Json =
    | Null
    | Bool(b: bool)
    | Num(n: int)
    | Str(s: string)
    | Arr(items: seq<Json>)
    | Obj(members: seq<(string, Json)>)

  /** The member names of an object, in order. */
  function Keys(members: seq<(string, Json)>): (ks: seq<string>)
    ensures |ks| == |members|
    ensures forall i :: 0 <= i < |members| ==> ks[i] == members[i].0
  {
    seq(|members|, i requires 0 <= i < |members| => members[i].0)
  }

  /** No member name occurs twice. */
  predicate UniqueKeys(members: seq<(string, Json)>)
  {
    forall i, j :: 0 <= i < j < |members| ==> members[i].0 != members[j].0
  }

  /**
   * The value of member `key`; when a name repeats, the last one wins, as
   * when JavaScript reads back an object with a duplicated key.
   */
  function Find(members: seq<(string, Json)>, key: string): (r: Option<Json>)
    ensures r.Some? <==> key in Keys(members)
    ensures r.Some? ==> (key, r.value) in members
    decreases |members|
  {
    if members == [] then None
    else
      var later := Find(members[1..], key);
      assert Keys(members) == [members[0].0] + Keys(members[1..]);
      if later.Some? then later
      else if members[0].0 == key then Some(members[0].1)
      else None
  }

  /** In an object with unique names, each member is found under its own name. */
  lemma {:induction false} FindMember(members: seq<(string, Json)>, i: nat)
    requires UniqueKeys(members) && i < |members|
    ensures Find(members, members[i].0) == Some(members[i].1)
    decreases |members|
  {
    var rest := members[1..];
    if i == 0 {
      assert members[0].0 !in Keys(rest);
    } else {
      assert rest[i - 1] == members[i];
      FindMember(rest, i - 1);
    }
  }

  /** `j[key]`: the member of an object, absent for a missing key or a non-object. */
  function Get(j: Json, key: string): Option<Json>
  {
    if j.Obj? then Find(j.members, key) else None
  }

  /** `j[k0][k1]...`: follows a path of member names. */
  function At(j: Json, path: seq<string>): Option<Json>
    decreases |path|
  {
    if path == [] then Some(j)
    else match Get(j, path[0])
      case None => None
      case Some(child) => At(child, path[1..])
  }

  /** A one-name path is a single member lookup. */
  lemma AtKey(j: Json, key: string)
    ensures At(j, [key]) == Get(j, key)
  {
    match Get(j, key)
    case None =>
    case Some(child) => assert [key][1..] == [];
  }

  /** Following `p + q` is following `p`, then `q` from where `p` leads. */
  lemma {:induction false} AtAppend(j: Json, p: seq<string>, q: seq<string>)
    ensures At(j, p + q) == match At(j, p) case None => None case Some(k) => At(k, q)
    decreases |p|
  {
    if p != [] {
      assert (p + q)[0] == p[0] && (p + q)[1..] == p[1..] + q;
      match Get(j, p[0])
      case None =>
      case Some(child) => AtAppend(child, p[1..], q);
    } else {
      assert p + q == q;
    }
  }
}
