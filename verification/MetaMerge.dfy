/** The delta merge behind `_meta.json` (`metaDelta`, `writeMetaFileLocked` in
    internal/conversations/index.go). */
module MetaMerge {

  /** The change one batch applies to the shared meta file. */
  datatype MetaDelta<V> = MetaDelta(upserts: map<string, V>, deletes: set<string>) {
    function Keys(): set<string> { upserts.Keys + deletes }
  }

  function Merge<V>(m: map<string, V>, d: MetaDelta<V>): map<string, V> {
    (m + d.upserts) - d.deletes
  }

  /** Sessions whose meta entry differs between two maps: those a load drops from
      the cache. */
  function Changed<V(==)>(a: map<string, V>, b: map<string, V>): set<string> {
    (set sid | sid in a && (sid !in b || b[sid] != a[sid])) + (b.Keys - a.Keys)
  }

  function Fold<V>(base: map<string, V>, log: seq<MetaDelta<V>>): map<string, V> {
    if log == [] then base else Merge(Fold(base, log[..|log| - 1]), log[|log| - 1])
  }

  /** Index of the last delta that names sid, or -1. */
  function LastNaming<V>(log: seq<MetaDelta<V>>, sid: string): (i: int)
    ensures -1 <= i < |log|
    ensures i >= 0 ==> sid in log[i].Keys()
    ensures forall j :: i < j < |log| ==> sid !in log[j].Keys()
  {
    if log == [] then -1
    else if sid in log[|log| - 1].Keys() then |log| - 1
    else LastNaming(log[..|log| - 1], sid)
  }

  /** No lost update, no resurrection: what the folded file says about a session
      is what the last delta naming it said, whatever other deltas did. */
  lemma {:induction false} LastDeltaDecides<V>(base: map<string, V>, log: seq<MetaDelta<V>>, sid: string)
    ensures var i := LastNaming(log, sid);
            if i < 0 then
              (sid in Fold(base, log) <==> sid in base) && (sid in base ==> Fold(base, log)[sid] == base[sid])
            else if sid in log[i].deletes then sid !in Fold(base, log)
            else sid in Fold(base, log) && Fold(base, log)[sid] == log[i].upserts[sid]
  {
    if log != [] && sid !in log[|log| - 1].Keys() {
      LastDeltaDecides(base, log[..|log| - 1], sid);
    }
  }
}
