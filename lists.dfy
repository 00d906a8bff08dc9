/**
 * The list rewrites the user and product stores apply to their state with
 * `Array.prototype.map`, `filter` and `find`, all keyed on `x.id === id`.
 */
module Lists {
  import opened Wrappers
  import opened Js

  /** `x.id === id`. */
  predicate HasId(x: JsVal, id: JsVal) {
    StrictEq(Get(x, "id"), id)
  }

  /** `s.map(x => x.id === id ? data : x)`. */
  function ReplaceById(s: seq<JsVal>, id: JsVal, data: JsVal): (r: seq<JsVal>)
    ensures |r| == |s|
    ensures forall i :: 0 <= i < |s| ==> r[i] == if HasId(s[i], id) then data else s[i]
  {
    if s == [] then []
    else [if HasId(s[0], id) then data else s[0]] + ReplaceById(s[1..], id, data)
  }

  /** Replacing twice with the same data is replacing once. */
  lemma ReplaceByIdIdempotent(s: seq<JsVal>, id: JsVal, data: JsVal)
    ensures ReplaceById(ReplaceById(s, id, data), id, data) == ReplaceById(s, id, data)
  {
    var once := ReplaceById(s, id, data);
    var twice := ReplaceById(once, id, data);
    assert forall i :: 0 <= i < |s| ==> twice[i] == once[i];
  }

  /** `{ ...x, role: role }`. */
  function WithRole(x: JsVal, role: JsVal): (r: JsVal)
    ensures r.Obj? && Get(r, "role") == role
    ensures forall k :: k != "role" ==> Get(r, k) == Get(x, k)
  {
    assert forall k :: Get(Obj(Props(x)), k) == Get(x, k);
    Obj(Put(Props(x), "role", role))
  }

  /** `s.map(x => x.id === id ? { ...x, role: role } : x)`. */
  function SetRoleById(s: seq<JsVal>, id: JsVal, role: JsVal): (r: seq<JsVal>)
    ensures |r| == |s|
    ensures forall i :: 0 <= i < |s| ==> r[i] == if HasId(s[i], id) then WithRole(s[i], role) else s[i]
  {
    if s == [] then []
    else [if HasId(s[0], id) then WithRole(s[0], role) else s[0]] + SetRoleById(s[1..], id, role)
  }

  /** A role update keeps every other field, in particular the id it was
      selected by. */
  lemma SetRoleByIdKeepsOtherFields(s: seq<JsVal>, id: JsVal, role: JsVal, i: nat, k: string)
    requires i < |s| && k != "role"
    ensures Get(SetRoleById(s, id, role)[i], k) == Get(s[i], k)
    ensures HasId(SetRoleById(s, id, role)[i], id) == HasId(s[i], id)
  {
  }

  /** `s.filter(x => x.id !== id)`. */
  function RemoveById(s: seq<JsVal>, id: JsVal): (r: seq<JsVal>)
    ensures |r| <= |s|
    ensures forall x :: x in r <==> x in s && !HasId(x, id)
  {
    if s == [] then []
    else
      assert forall x :: x in s <==> x == s[0] || x in s[1..];
      (if HasId(s[0], id) then [] else [s[0]]) + RemoveById(s[1..], id)
  }

  /** Removal distributes over concatenation: the kept elements stay in
      their order. Together with the one-element case below this determines
      the result. */
  lemma {:induction false} RemoveByIdConcat(a: seq<JsVal>, b: seq<JsVal>, id: JsVal)
    ensures RemoveById(a + b, id) == RemoveById(a, id) + RemoveById(b, id)
  {
    if a == [] {
      assert a + b == b;
    } else {
      assert (a + b)[0] == a[0];
      assert (a + b)[1..] == a[1..] + b;
      RemoveByIdConcat(a[1..], b, id);
    }
  }

  lemma RemoveByIdSingle(x: JsVal, id: JsVal)
    ensures RemoveById([x], id) == if HasId(x, id) then [] else [x]
  {
    assert [x][1..] == [];
  }

  /** Number of elements `x` with `x.id === id`. */
  function CountWithId(s: seq<JsVal>, id: JsVal): nat {
    if s == [] then 0 else (if HasId(s[0], id) then 1 else 0) + CountWithId(s[1..], id)
  }

  /** Exactly the matching elements are removed. */
  lemma {:induction false} RemoveByIdLength(s: seq<JsVal>, id: JsVal)
    ensures |RemoveById(s, id)| == |s| - CountWithId(s, id)
  {
    if s != [] {
      RemoveByIdLength(s[1..], id);
    }
  }

  /** A list without a matching element is left as it is. */
  lemma {:induction false} RemoveByIdWithoutMatch(s: seq<JsVal>, id: JsVal)
    requires forall i :: 0 <= i < |s| ==> !HasId(s[i], id)
    ensures RemoveById(s, id) == s
  {
    if s != [] {
      RemoveByIdWithoutMatch(s[1..], id);
    }
  }

  /** Removing twice is removing once. */
  lemma RemoveByIdIdempotent(s: seq<JsVal>, id: JsVal)
    ensures RemoveById(RemoveById(s, id), id) == RemoveById(s, id)
  {
    var r := RemoveById(s, id);
    forall i | 0 <= i < |r|
      ensures !HasId(r[i], id)
    {
      assert r[i] in r;
    }
    RemoveByIdWithoutMatch(r, id);
  }

  /** The index `s.findIndex(x => x.id === id)` as an option. */
  function FindIndex(s: seq<JsVal>, id: JsVal): (r: Option<nat>)
    ensures r.Some? ==> r.value < |s| && HasId(s[r.value], id)
    ensures r.Some? ==> forall j :: 0 <= j < r.value ==> !HasId(s[j], id)
    ensures r.None? ==> forall j :: 0 <= j < |s| ==> !HasId(s[j], id)
  {
    if s == [] then None
    else if HasId(s[0], id) then Some(0)
    else
      match FindIndex(s[1..], id)
      case None => None
      case Some(k) => Some(k + 1)
  }

  /** `s.find(x => x.id === id)`: the first matching element. */
  function FindById(s: seq<JsVal>, id: JsVal): (r: Option<JsVal>)
    ensures r.None? <==> forall j :: 0 <= j < |s| ==> !HasId(s[j], id)
    ensures r.Some? ==>
              exists i :: 0 <= i < |s| && s[i] == r.value && HasId(s[i], id)
                          && forall j :: 0 <= j < i ==> !HasId(s[j], id)
  {
    match FindIndex(s, id)
    case None => None
    case Some(i) => Some(s[i])
  }
}
