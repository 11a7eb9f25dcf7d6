/**
 * What the hooks see of the remote record store and of the toast sink: a
 * call's outcome, a toast, and the list updaters the hooks pass to their
 * state setters (`prev.map(...)` replace-by-id and `prev.filter(...)`
 * remove-by-id).
 */
module Remote {
  import opened Seqs

  /** The signed-in user's id; `useAuth().user` is `Option<UserId>`. */
  type UserId = string

  /** What a store call resolved to: its `data`, or the `error` it threw. */
  datatype Response<T> = Ok(data: T) | Err(message: string)

  /** One `toast({ title, description, variant })` call; `destructive` is the error variant. */
  datatype Toast = Toast(title: string, description: string, destructive: bool)

  function SuccessToast(description: string): Toast {
    Toast("Success", description, false)
  }

  function ErrorToast(description: string): Toast {
    Toast("Error", description, true)
  }

  /** `xs.map(x => key(x) === id ? record : x)`. */
  function ReplaceById<T>(xs: seq<T>, key: T -> string, id: string, record: T): (r: seq<T>)
    ensures |r| == |xs|
    ensures forall i :: 0 <= i < |xs| && key(xs[i]) == id ==> r[i] == record
    ensures forall i :: 0 <= i < |xs| && key(xs[i]) != id ==> r[i] == xs[i]
  {
    Map(xs, (x: T) => if key(x) == id then record else x)
  }

  /** With no entry carrying `id`, replacing by `id` leaves the list as it was. */
  lemma ReplaceByIdAbsent<T>(xs: seq<T>, key: T -> string, id: string, record: T)
    requires forall i :: 0 <= i < |xs| ==> key(xs[i]) != id
    ensures ReplaceById(xs, key, id, record) == xs
  {
  }

  /** Replacing by `id` is idempotent, whatever id the new record carries. */
  lemma ReplaceByIdIdempotent<T>(xs: seq<T>, key: T -> string, id: string, record: T)
    ensures ReplaceById(ReplaceById(xs, key, id, record), key, id, record) == ReplaceById(xs, key, id, record)
  {
  }

  /** `xs.filter(x => key(x) !== id)`. */
  function RemoveById<T>(xs: seq<T>, key: T -> string, id: string): (r: seq<T>)
    ensures IsSubsequence(r, xs)
    ensures forall i :: 0 <= i < |r| ==> key(r[i]) != id
    ensures forall i :: 0 <= i < |xs| && key(xs[i]) != id ==> xs[i] in r
    ensures |r| + Count(xs, (x: T) => key(x) == id) == |xs|
  {
    var r := Filter(xs, (x: T) => key(x) != id);
    CountComplement(xs, (x: T) => key(x) == id, (x: T) => key(x) != id);
    r
  }

  lemma {:induction false} CountComplement<T>(xs: seq<T>, p: T -> bool, q: T -> bool)
    requires forall x :: p(x) == !q(x)
    ensures Count(xs, p) + |Filter(xs, q)| == |xs|
  {
    if xs != [] {
      CountComplement(xs[1..], p, q);
    }
  }

  /** With no entry carrying `id`, removing by `id` leaves the list as it was. */
  lemma RemoveByIdAbsent<T>(xs: seq<T>, key: T -> string, id: string)
    requires forall i :: 0 <= i < |xs| ==> key(xs[i]) != id
    ensures RemoveById(xs, key, id) == xs
  {
    FilterKeepsAll(xs, (x: T) => key(x) != id);
  }

  /** Removing by `id` twice is removing once. */
  lemma RemoveByIdIdempotent<T>(xs: seq<T>, key: T -> string, id: string)
    ensures RemoveById(RemoveById(xs, key, id), key, id) == RemoveById(xs, key, id)
  {
    FilterIdempotent(xs, (x: T) => key(x) != id);
  }
}
