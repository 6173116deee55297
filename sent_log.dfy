/**
 * The sent log: the ids of the videos already delivered, kept in memory as a
 * set and on disk as a JSON list (check.py:53-62). The file is modelled as
 * its decoded list, or `None` when it does not exist.
 */
module SentLog {
  import opened Wrappers

  /** The elements of a list, as Python's `set(xs)`. */
  function Elems(xs: seq<string>): set<string>
  {
    set x | x in xs
  }

  /** No id is listed twice. */
  predicate NoDuplicates(xs: seq<string>)
  {
    forall i, j :: 0 <= i < j < |xs| ==> xs[i] != xs[j]
  }

  /**
   * `load_sent_log` (check.py:53-57): a missing file reads as the empty set,
   * an existing one as exactly the ids it lists.
   */
  function LoadSentLog(file: Option<seq<string>>): (ids: set<string>)
    ensures forall x :: x in ids <==> file.Some? && x in file.value
  {
    match file
    case None => {}
    case Some(xs) => Elems(xs)
  }

  /**
   * `list(sent_ids)` (check.py:62): every id of the set exactly once, in an
   * order the model leaves open.
   */
  method ListOf(ids: set<string>) returns (xs: seq<string>)
    ensures Elems(xs) == ids
    ensures NoDuplicates(xs)
    ensures |xs| == |ids|
  {
    xs := [];
    var rest := ids;
    while rest != {}
      invariant rest <= ids
      invariant Elems(xs) == ids - rest
      invariant NoDuplicates(xs)
      invariant |xs| + |rest| == |ids|
      decreases |rest|
    {
      var x :| x in rest;
      assert Elems(xs + [x]) == Elems(xs) + {x};
      xs := xs + [x];
      rest := rest - {x};
    }
  }
}
