/**
 * The user's AT Protocol repository as the sync layer sees it: records
 * addressed by repository DID, collection NSID and record key, read with
 * `com.atproto.repo.getRecord` and written with `createRecord` or
 * `putRecord`. Whether the server can be reached, and whether it accepts a
 * write, are inputs of each call.
 */
module Remote {
  import opened Wrappers
  import opened Records

  const PROFILE_NSID: string := "blue.2048.player.profile"
  const STATS_NSID: string := "blue.2048.player.stats"
  const GAME_NSID: string := "blue.2048.game"

  /** Texts of the two ways a `getRecord` call fails (the server's own messages are not modelled). */
  const RECORD_NOT_FOUND: string := "RecordNotFound"
  const UNREACHABLE: string := "request failed"

  datatype AtUri = AtUri(repo: Did, collection: string, rkey: string)

  /** The record kind each `blue.2048` collection holds. */
  predicate Fits(collection: string, v: Value) {
    && (collection == PROFILE_NSID ==> v.ProfileValue?)
    && (collection == STATS_NSID ==> v.StatsValue?)
    && (collection == GAME_NSID ==> v.GameValue?)
  }

  /** What `getRecord` answers for `uri`. */
  function Fetch(records: map<AtUri, Value>, uri: AtUri, reachable: bool): Result<Value, string> {
    if !reachable then Err(UNREACHABLE)
    else if uri in records then Ok(records[uri])
    else Err(RECORD_NOT_FOUND)
  }

  /** A record written to the repository reads back as written; every other record reads as before. */
  lemma FetchAfterWrite(records: map<AtUri, Value>, uri: AtUri, v: Value, other: AtUri, reachable: bool)
    ensures Fetch(records[uri := v], uri, true) == Ok(v)
    ensures other != uri ==> Fetch(records[uri := v], other, reachable) == Fetch(records, other, reachable)
    ensures !reachable ==> Fetch(records[uri := v], other, reachable) == Err(UNREACHABLE)
  {
  }

  class Pds {
    var records: map<AtUri, Value>

    ghost predicate Valid()
      reads this
    {
      forall u | u in records :: Fits(u.collection, records[u])
    }

    constructor (initial: map<AtUri, Value>)
      requires forall u | u in initial :: Fits(u.collection, initial[u])
      ensures Valid() && records == initial
    {
      records := initial;
    }

    /** `getRecord`: fails when the server is unreachable or holds no such record. */
    method GetRecord(uri: AtUri, reachable: bool) returns (r: Result<Value, string>)
      requires Valid()
      ensures r == Fetch(records, uri, reachable)
      ensures r.Ok? ==> Fits(uri.collection, r.value)
    {
      if !reachable {
        return Err(UNREACHABLE);
      }
      if uri in records {
        r := Ok(records[uri]);
      } else {
        r := Err(RECORD_NOT_FOUND);
      }
    }

    /**
     * `createRecord` with an explicit record key, or `putRecord`: when the
     * server accepts the write, the record is stored under `uri`.
     */
    method Write(uri: AtUri, v: Value, accepted: bool) returns (ok: bool)
      requires Valid() && Fits(uri.collection, v)
      modifies this
      ensures Valid()
      ensures ok == accepted
      ensures records == if ok then old(records)[uri := v] else old(records)
    {
      if accepted {
        records := records[uri := v];
      }
      ok := accepted;
    }
  }
}
