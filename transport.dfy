/**
 * The HTTP transport the token managers and signers talk to. The network is
 * not modelled: the client records every request it is asked to send and
 * answers with the next decoded reply of a script fixed by the caller, so the
 * provider's answers are arbitrary inputs. An exhausted script stands for a
 * transport failure.
 */
module Transport {
  import opened Php
  import opened Kernel

  /** A query-string or header value: one string, or a list (one pair per element). */
  datatype QueryValue = One(v: string) | Many(vs: seq<string>)

  /** An ordered PHP array of string keys, as used for `query` and `headers` options. */
  type Params = seq<(string, QueryValue)>

  /**
   * One `request($method, $url, $options)` call ($method is `verb`): `json` is
   * the `json` option (JNull when there is none) and `body` the raw `body`
   * option (None when there is none).
   */
  datatype Request = Request(verb: string, url: string, query: Params, headers: Params, json: Json, body: Option<Json>)

  /** The value of key `k` in an ordered array (the first entry wins; PHP keys are unique). */
  function Lookup(ps: Params, k: string): (r: Option<QueryValue>)
    ensures r.Some? <==> exists i :: 0 <= i < |ps| && ps[i].0 == k
  {
    if |ps| == 0 then None
    else if ps[0].0 == k then Some(ps[0].1)
    else
      var r := Lookup(ps[1..], k);
      assert forall i :: 1 <= i < |ps| ==> ps[i] == ps[1..][i - 1];
      r
  }

  /** The value of the first entry with key `k`. */
  lemma {:induction false} LookupAt(ps: Params, i: nat, k: string)
    requires i < |ps| && ps[i].0 == k
    requires forall j :: 0 <= j < i ==> ps[j].0 != k
    ensures Lookup(ps, k) == Some(ps[i].1)
  {
    if i > 0 {
      LookupAt(ps[1..], i - 1, k);
    }
  }

  /** The position of the first entry with key `k`. */
  function IndexOf(ps: Params, k: string): (r: Option<nat>)
    ensures r.Some? ==> r.value < |ps| && ps[r.value].0 == k && forall j :: 0 <= j < r.value ==> ps[j].0 != k
    ensures r.None? ==> forall j :: 0 <= j < |ps| ==> ps[j].0 != k
  {
    if |ps| == 0 then None
    else if ps[0].0 == k then Some(0)
    else
      match IndexOf(ps[1..], k)
      case None => None
      case Some(i) => Some(i + 1)
  }

  lemma LookupIndexOf(ps: Params, k: string)
    ensures Lookup(ps, k) == if IndexOf(ps, k).Some? then Some(ps[IndexOf(ps, k).value].1) else None
  {
    if IndexOf(ps, k).Some? {
      LookupAt(ps, IndexOf(ps, k).value, k);
    }
  }

  /** Replacing the value of an entry leaves every other key's value alone. */
  lemma LookupReplace(ps: Params, i: nat, e: (string, QueryValue), k: string)
    requires i < |ps| && e.0 == ps[i].0
    ensures Lookup(ps[i := e], k) == if IndexOf(ps, k) == Some(i) then Some(e.1) else Lookup(ps, k)
  {
    var qs := ps[i := e];
    assert forall j :: 0 <= j < |ps| ==> qs[j].0 == ps[j].0;
    assert IndexOf(qs, k) == IndexOf(ps, k);
    LookupIndexOf(ps, k);
    LookupIndexOf(qs, k);
  }

  /** An entry appended after the others is found only when its key is new. */
  lemma LookupAppend(ps: Params, e: (string, QueryValue), k: string)
    ensures Lookup(ps + [e], k) == if Lookup(ps, k).Some? then Lookup(ps, k) else if e.0 == k then Some(e.1) else None
  {
    var qs := ps + [e];
    assert forall j :: 0 <= j < |ps| ==> qs[j] == ps[j];
    LookupIndexOf(ps, k);
    LookupIndexOf(qs, k);
    if IndexOf(ps, k).None? && e.0 == k {
      assert qs[|ps|].0 == k;
      assert forall j :: 0 <= j < |ps| ==> qs[j].0 != k;
      assert IndexOf(qs, k) == Some(|ps|);
    }
  }

  /** `$ps[$k] = $v`: the value of an existing key is replaced in place, a new key is appended. */
  function SetEntry(ps: Params, k: string, v: QueryValue): Params {
    match IndexOf(ps, k)
    case Some(i) => ps[i := (k, v)]
    case None => ps + [(k, v)]
  }

  lemma SetEntryLookup(ps: Params, k: string, v: QueryValue, key: string)
    ensures Lookup(SetEntry(ps, k, v), key) == if key == k then Some(v) else Lookup(ps, key)
  {
    match IndexOf(ps, k)
    case Some(i) =>
      LookupReplace(ps, i, (k, v), key);
      LookupIndexOf(ps, key);
    case None =>
      LookupAppend(ps, (k, v), key);
  }

  /** What the next `request(...)->toArray(false)` yields under a reply script. */
  function NextReply(replies: seq<Json>): Result<Json> {
    if replies == [] then Err(Transport) else Ok(replies[0])
  }

  class HttpClient {
    /** Every request sent so far, oldest first. */
    var sent: seq<Request>
    /** The decoded replies still to be returned, in order. */
    var replies: seq<Json>

    constructor (replies: seq<Json>)
      ensures sent == [] && this.replies == replies
    {
      sent := [];
      this.replies := replies;
    }

    /** `request(...)->toArray(false)`. */
    method Send(req: Request) returns (r: Result<Json>)
      modifies this
      ensures sent == old(sent) + [req]
      ensures r == NextReply(old(replies))
      ensures replies == if old(replies) == [] then [] else old(replies)[1..]
    {
      sent := sent + [req];
      if replies == [] {
        r := Err(Transport);
      } else {
        r := Ok(replies[0]);
        replies := replies[1..];
      }
    }
  }
}
