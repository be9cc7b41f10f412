/** Values shared by several pages: optional values, the outcome of a call to
    an external service, and the organization record the two REST clients
    (src/lib/adminApi.ts and src/lib/organizationsApi.ts) return. */
module Shared {

  /** A JavaScript value that may be `undefined` or `null`. */
  datatype Option<T> = None | Some(value: T)

  /** The settled outcome of an awaited call: a value, or a thrown error
      carrying its `message`. */
  datatype Result<T> = Ok(value: T) | Err(message: string)

  /** The outcome of an awaited call whose value the caller ignores. */
  datatype Status = Done | Failed(message: string)

  /** `err.message || fallback`: the message of a caught error, or the page's
      own text when the message is empty. */
  function MessageOr(message: string, fallback: string): (r: string)
    ensures message != "" ==> r == message
    ensures message == "" ==> r == fallback
  {
    if message != "" then message else fallback
  }

  /** A string field that JavaScript treats as present: defined and non-empty. */
  predicate Truthy(s: Option<string>) {
    s.Some? && s.value != ""
  }

  /** `s || fallback` on an optional string. */
  function OrDefault(s: Option<string>, fallback: string): (r: string)
    ensures Truthy(s) ==> r == s.value
    ensures !Truthy(s) ==> r == fallback
  {
    if Truthy(s) then s.value else fallback
  }

  /** An organization as the REST API returns it; `userRole` is only filled in
      by the per-user listing. */
  datatype Organization = Organization(
    id: string,
    name: string,
    email: Option<string>,
    phone: Option<string>,
    address: Option<string>,
    city: Option<string>,
    postalCode: Option<string>,
    country: Option<string>,
    taxNumber: Option<string>,
    userRole: Option<string>)

  /** The ids of a list of organizations, as a set. */
  function IdSet(orgs: seq<Organization>): (r: set<string>)
    ensures forall k :: 0 <= k < |orgs| ==> orgs[k].id in r
    ensures forall id :: id in r ==> exists k :: 0 <= k < |orgs| && orgs[k].id == id
  {
    set k | 0 <= k < |orgs| :: orgs[k].id
  }

  /** `xs.filter(keep)`: the elements that pass, in their original order. */
  function Filter<T>(xs: seq<T>, keep: T -> bool): (r: seq<T>)
    ensures |r| <= |xs|
    ensures forall k :: 0 <= k < |r| ==> keep(r[k]) && r[k] in xs
  {
    if xs == [] then []
    else if keep(xs[0]) then [xs[0]] + Filter(xs[1..], keep)
    else Filter(xs[1..], keep)
  }

  /** `sub` is `xs` with some elements left out, the rest kept in order. */
  predicate IsSubsequence<T(==)>(sub: seq<T>, xs: seq<T>)
    decreases |xs|
  {
    if sub == [] then true
    else if xs == [] then false
    else (sub[0] == xs[0] && IsSubsequence(sub[1..], xs[1..])) || IsSubsequence(sub, xs[1..])
  }

  /** Filtering keeps exactly the elements that pass, in order. */
  lemma {:induction false} FilterIsSubsequence<T>(xs: seq<T>, keep: T -> bool)
    ensures IsSubsequence(Filter(xs, keep), xs)
    ensures forall x :: x in Filter(xs, keep) <==> x in xs && keep(x)
    decreases |xs|
  {
    if xs != [] {
      FilterIsSubsequence(xs[1..], keep);
      assert xs == [xs[0]] + xs[1..];
    }
  }

  /** A filter that keeps everything is the identity. */
  lemma {:induction false} FilterAll<T>(xs: seq<T>, keep: T -> bool)
    requires forall k :: 0 <= k < |xs| ==> keep(xs[k])
    ensures Filter(xs, keep) == xs
    decreases |xs|
  {
    if xs != [] {
      FilterAll(xs[1..], keep);
    }
  }

  /** Filtering with a weaker test keeps at least as much: a match for the
      stronger test is a match for the weaker one. */
  lemma {:induction false} FilterMonotone<T>(xs: seq<T>, strong: T -> bool, weak: T -> bool)
    requires forall k :: 0 <= k < |xs| && strong(xs[k]) ==> weak(xs[k])
    ensures |Filter(xs, strong)| <= |Filter(xs, weak)|
    decreases |xs|
  {
    if xs != [] {
      FilterMonotone(xs[1..], strong, weak);
    }
  }
}
