/** internal/pve/client.go: one client per target, and its error counter. */
module Clients {
  import opened Seqs
  import opened Api

  /** One past logical call: what was asked, and how it ended. */
  datatype Exchange = Exchange(path: string, optional: bool, answer: Answer)

  predicate IsExpectedAbsence(code: int) {
    code == STATUS_FORBIDDEN || code == STATUS_NOT_FOUND
  }

  /** ADR 0008: a transport error or a non-200 status counts, except 403 and 404
      on an optional endpoint; a body that does not decode never counts. */
  predicate Counted(e: Exchange) {
    e.answer.TransportError?
    || (e.answer.code != STATUS_OK && !(e.optional && e.answer.code in {403, 404}))
  }

  /** How many calls of a log count as request errors. */
  function Errors(log: seq<Exchange>): nat {
    |Filter(Counted, log)|
  }

  lemma ErrorsConcat(a: seq<Exchange>, b: seq<Exchange>)
    ensures Errors(a + b) == Errors(a) + Errors(b)
  {
    FilterConcat(Counted, a, b);
  }

  lemma ErrorsOne(e: Exchange)
    ensures Errors([e]) == if Counted(e) then 1 else 0
  {
    FilterSnoc(Counted, [], e);
    assert [] + [e] == [e];
  }

  lemma {:induction false} ErrorsBound(log: seq<Exchange>)
    ensures Errors(log) <= |log|
  {
    if log == [] {
    } else {
      ErrorsBound(log[..|log| - 1]);
    }
  }

  /** What a caller is told of an answer: a failure for a transport error, any status
      but 200, or a body that does not decode; else the data, if there is any. */
  predicate Tells(a: Answer, r: Reply) {
    match a
    case TransportError => r == Failed
    case Response(code, body) =>
      if code == 200 && body.NoData? then r == Ok(None)
      else if code == 200 && body.Data? then r == Ok(Some(body.payload))
      else r == Failed
  }

  /** Which answers the counter counts, code by code. */
  predicate IsError(a: Answer, optional: bool) {
    a.TransportError? || (if optional then a.code !in {200, 403, 404} else a.code != 200)
  }

  /** A call counts exactly for such an answer, and the reply tells what it should. */
  lemma CallsTell(path: string, optional: bool, a: Answer)
    ensures Counted(Exchange(path, optional, a)) <==> IsError(a, optional)
    ensures Tells(a, ReplyOf(a))
    ensures forall r :: Tells(a, r) ==> r == ReplyOf(a)
  {
  }

  class Client {
    const name: string
    var requestErrors: nat
    ghost var log: seq<Exchange>

    // Proof bookkeeping, as in SampleSet: the log as it was at some point, and since.
    ghost var base: seq<Exchange>
    ghost var added: seq<Exchange>

    /** In every reachable state the counter is the number of counted past calls. */
    ghost predicate Valid()
      reads this
    {
      requestErrors == Errors(log)
    }

    constructor (name: string)
      ensures this.name == name && log == [] && requestErrors == 0 && Valid()
    {
      this.name := name;
      requestErrors := 0;
      log := [];
    }

    ghost method Mark() returns (b: seq<Exchange>, a: seq<Exchange>)
      modifies this`base, this`added
      ensures b == old(base) && a == old(added)
      ensures Marked() && base == log && added == []
    {
      b, a := base, added;
      base, added := log, [];
    }

    ghost method Release(b: seq<Exchange>, a: seq<Exchange>)
      requires Marked()
      modifies this`base, this`added
      ensures base == b && added == a + old(added)
      ensures old(base) == b + a ==> Marked()
    {
      assert (b + a) + added == b + (a + added);
      base, added := b, a + added;
    }

    ghost predicate Marked()
      reads this
    {
      log == base + added
    }

    /** The calls xs were made; the counter still equals the counted calls. */
    twostate predicate Called(xs: seq<Exchange>)
      reads this
    {
      && Valid()
      && log == old(log) + xs
      && base == old(base)
      && (old(Marked()) ==> Marked() && added == old(added) + xs)
    }

    twostate lemma NothingCalled()
      requires Valid() && unchanged(this)
      ensures Called([])
    {
      Regroup(log, [], []);
      Regroup(added, [], []);
    }

    /** The shared implementation of Get and GetOptional. */
    method Fetch(pve: Pve, path: string, optional: bool) returns (r: Reply)
      requires Valid()
      modifies this
      ensures Called([Exchange(path, optional, pve(path))])
      ensures r == ReplyOf(pve(path)) && Tells(pve(path), r)
      ensures requestErrors == old(requestErrors) + (if IsError(pve(path), optional) then 1 else 0)
    {
      var resp := pve(path);
      ghost var e := Exchange(path, optional, resp);
      ErrorsConcat(log, [e]);
      ErrorsOne(e);
      assert (base + added) + [e] == base + (added + [e]);
      log := log + [e];
      added := added + [e];
      if resp.TransportError? {
        requestErrors := requestErrors + 1;
        return Failed;
      }
      if resp.code != STATUS_OK {
        var expectedAbsence := optional && IsExpectedAbsence(resp.code);
        if !expectedAbsence {
          requestErrors := requestErrors + 1;
        }
        return Failed;
      }
      match resp.body
      case Undecodable => return Failed;
      case NoData => return Ok(None);
      case Data(p) => return Ok(Some(p));
    }

    method Get(pve: Pve, path: string) returns (r: Reply)
      requires Valid()
      modifies this
      ensures Called([Exchange(path, false, pve(path))])
      ensures r == ReplyOf(pve(path)) && Tells(pve(path), r)
      ensures requestErrors == old(requestErrors) + (if IsError(pve(path), false) then 1 else 0)
    {
      r := Fetch(pve, path, false);
    }

    method GetOptional(pve: Pve, path: string) returns (r: Reply)
      requires Valid()
      modifies this
      ensures Called([Exchange(path, true, pve(path))])
      ensures r == ReplyOf(pve(path)) && Tells(pve(path), r)
      ensures requestErrors == old(requestErrors) + (if IsError(pve(path), true) then 1 else 0)
    {
      r := Fetch(pve, path, true);
    }
  }
}
