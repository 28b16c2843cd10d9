/** The in-memory key-value store of polls that the program's tests run the service
    against; the deployed program uses a BoltDB-backed store, not part of this model. */
module Store {
  import opened Poll

  class MapStore {
    /** The stored polls, by key. */
    var db: map<string, Lunch>

    /** Every stored poll carries its own key as identifier, because Store stamps it. */
    ghost predicate Valid()
      reads this
    {
      forall k :: k in db ==> db[k].id == Some(k)
    }

    /** An empty store. */
    constructor ()
      ensures db == map[] && Valid()
    {
      db := map[];
    }

    /** The poll stored under `key`, or NotFound. */
    method Find(key: string) returns (r: Result<Lunch>)
      ensures key in db ==> r == Ok(db[key])
      ensures key !in db ==> r == Err(NotFound)
    {
      if key !in db {
        return Err(NotFound);
      }
      return Ok(db[key]);
    }

    /** Overwrites whatever is under `k` with `l` stamped with `k` as identifier,
        and returns the stamped poll; it never fails. */
    method Store(k: string, l: Lunch) returns (r: Lunch)
      requires Valid()
      modifies this
      ensures Valid()
      ensures r == l.(id := Some(k))
      ensures db == old(db)[k := r]
    {
      r := l.(id := Some(k));
      db := db[k := r];
    }

    /** A snapshot of all stored polls, one per key, in no particular order;
        `keys` names the key each entry came from. */
    method List() returns (lunches: seq<Lunch>, ghost keys: seq<string>)
      ensures |lunches| == |db|
      ensures forall i :: 0 <= i < |lunches| ==> lunches[i] in db.Values
      ensures forall k :: k in db ==> db[k] in lunches
      ensures |keys| == |lunches| && forall k :: k in keys <==> k in db
      ensures forall i :: 0 <= i < |keys| ==> keys[i] in db && lunches[i] == db[keys[i]]
      ensures forall i, j :: 0 <= i < j < |keys| ==> keys[i] != keys[j]
    {
      lunches, keys := [], [];
      var rest := db.Keys;
      while rest != {}
        invariant rest <= db.Keys
        invariant forall k :: k in keys ==> k !in rest
        invariant forall k :: k in db <==> k in keys || k in rest
        invariant |keys| == |lunches| && |lunches| + |rest| == |db|
        invariant forall i :: 0 <= i < |keys| ==> keys[i] in db && lunches[i] == db[keys[i]]
        invariant forall i, j :: 0 <= i < j < |keys| ==> keys[i] != keys[j]
        decreases |rest|
      {
        var k :| k in rest;
        lunches, keys := lunches + [db[k]], keys + [k];
        rest := rest - {k};
      }
      forall k | k in db
        ensures db[k] in lunches
      {
        var i :| 0 <= i < |keys| && keys[i] == k;
        assert lunches[i] == db[k];
      }
    }
  }
}
