/**
 The frame registry: every sticky header publishes a one-entry dictionary
 `[id: frame]`, and the framework folds those dictionaries together with
 `FramePreference.reduce`, starting from the empty default value. The fold is
 right-biased: on a key clash the newer rectangle wins, and keys the newer
 batch does not mention are kept.
 */
module FramePreference {
  import opened Geometry

  /** The merged registry: the key set is the union of both key sets, every
      key of `next` carries `next`'s rectangle (last writer wins) and every key
      only in `value` keeps its old rectangle. */
  function Merged<K>(value: map<K, Rect>, next: map<K, Rect>): (r: map<K, Rect>)
    ensures r.Keys == value.Keys + next.Keys
    ensures forall k :: k in next ==> r[k] == next[k]
    ensures forall k :: k in value && k !in next ==> r[k] == value[k]
  {
    value + next
  }

  /** `reduce(value:nextValue:)`: `value.merge(nextValue()) { $1 }`. The merge
      walks the entries of the next batch one at a time, in an order the
      dictionary does not specify, inserting each one and resolving a clash
      with the closure `{ $1 }`, which keeps the incoming rectangle. */
  method Reduce<K>(value: map<K, Rect>, next: map<K, Rect>) returns (merged: map<K, Rect>)
    ensures merged == Merged(value, next)
  {
    merged := value;
    var pending := next.Keys;
    while pending != {}
      invariant pending <= next.Keys
      invariant merged.Keys == value.Keys + (next.Keys - pending)
      invariant forall k :: k in next.Keys - pending ==> merged[k] == next[k]
      invariant forall k :: k in value && k !in next.Keys - pending ==> merged[k] == value[k]
      decreases pending
    {
      var k :| k in pending;
      // a new key is inserted; on a clash the closure `{ $1 }` keeps the incoming value
      merged := merged[k := next[k]];
      pending := pending - {k};
    }
  }

  /** The registry the framework builds from a sequence of published batches,
      reducing each into the accumulated value, starting from `defaultValue`,
      the empty dictionary. */
  function Collect<K>(batches: seq<map<K, Rect>>): (r: map<K, Rect>)
    ensures r.Keys == set i, k | 0 <= i < |batches| && k in batches[i] :: k
    ensures batches != [] ==> forall k :: k in batches[|batches| - 1] ==> r[k] == batches[|batches| - 1][k]
  {
    if batches == [] then map[]
    else Merged(Collect(batches[..|batches| - 1]), batches[|batches| - 1])
  }

  /** A key is registered exactly when some batch reported it, and its
      rectangle is the one of the LAST batch that reported it. */
  lemma {:induction false} CollectLastWriter<K>(batches: seq<map<K, Rect>>, k: K)
    ensures k in Collect(batches) <==> exists i :: 0 <= i < |batches| && k in batches[i]
    ensures forall j :: 0 <= j < |batches| && k in batches[j]
                        && (forall i :: j < i < |batches| ==> k !in batches[i])
                        ==> k in Collect(batches) && Collect(batches)[k] == batches[j][k]
  {
    if batches != [] {
      var n := |batches| - 1;
      var prefix := batches[..n];
      CollectLastWriter(prefix, k);
      assert forall i :: 0 <= i < n ==> prefix[i] == batches[i];
      if k in batches[n] {
        assert exists i :: 0 <= i < |batches| && k in batches[i] by {
          assert k in batches[n];
        }
      } else {
        forall j | 0 <= j < |batches| && k in batches[j]
          ensures j < n && k in prefix[j]
        {
        }
      }
    }
  }

  /** Reporting one header's frame changes only that header's entry: the
      registry after the merge is the old one with that key set to the new
      rectangle, whatever the registry held before. */
  lemma MergeSingleReport<K>(registry: map<K, Rect>, id: K, frame: Rect)
    ensures Merged(registry, map[id := frame]) == registry[id := frame]
    ensures forall k :: k in registry && k != id ==> Merged(registry, map[id := frame])[k] == registry[k]
  {
  }

  /** Folding the same batch in twice has the same effect as folding it in once,
      so a header that re-reports an unchanged frame changes nothing. */
  lemma MergedIdempotent<K>(registry: map<K, Rect>, batch: map<K, Rect>)
    ensures Merged(Merged(registry, batch), batch) == Merged(registry, batch)
  {
  }
}
