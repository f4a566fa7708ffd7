/**
 Idempotent submission over a lossy tunnel.  Payloads stand for their hashes, which are taken
 to be injective; run IDs are fresh values.  The member's mutex makes one SubmitRun one step;
 every repository call in it may fail before or after it has committed.
 */
module Submission {
  import opened Options

  datatype Claim = Claim(payload: string, runID: nat)

  /** `rows` maps a run ID to the key it was submitted under, "" for a run without one. */
  datatype State = State(durable: bool, claims: map<string, Claim>, rows: map<nat, string>, next: nat)

  datatype Fault = Works | FailsBefore | FailsAfter

  /** How the calls of one SubmitRun go; `startFault` covers everything from parsing to the environment lookup. */
  datatype Faults = Faults(claim: Fault, get: bool, startFault: Fault, getAgain: bool, release: Fault)

  datatype Reply = Created(runID: nat) | Refused | Failed

  /** StartRunFromAPIWithID: a row, and an ID if nothing went wrong. */
  function Start(s: State, runID: nat, key: string, fault: Fault): (State, Reply) {
    (if fault.FailsBefore? then s else s.(rows := s.rows[runID := key]),
     if fault.Works? then Created(runID) else Failed)
  }

  /** The atomic insert-or-get. */
  function ClaimKey(s: State, key: string, payload: string): State {
    if key in s.claims then s else s.(claims := s.claims[key := Claim(payload, s.next)], next := s.next + 1)
  }

  function Release(s: State, key: string, f: Faults): State {
    if f.getAgain && !f.release.FailsBefore? then s.(claims := s.claims - {key}) else s
  }

  /** What follows a claim that came back. */
  function SubmitClaimed(t: State, key: string, payload: string, f: Faults): (State, Reply)
    requires key in t.claims
  {
    var c := t.claims[key];
    if c.payload != payload then (t, Refused)
    else if !f.get then (t, Failed)
    else if c.runID in t.rows then (t, Created(c.runID))
    else if f.startFault.FailsBefore? then (Release(t, key, f), Failed)
    else Start(t, c.runID, key, f.startFault)
  }

  function Submit(s: State, key: string, payload: string, f: Faults): (State, Reply) {
    if key == "" || !s.durable then Start(s.(next := s.next + 1), s.next, "", f.startFault)
    else if f.claim.FailsBefore? then (s, Failed)
    else if f.claim.FailsAfter? then (ClaimKey(s, key, payload), Failed)
    else SubmitClaimed(ClaimKey(s, key, payload), key, payload, f)
  }

  /** One delivery of a request to the member. */
  datatype Delivery = Delivery(key: string, payload: string, faults: Faults)

  function After(s: State, ds: seq<Delivery>): State {
    if ds == [] then s
    else
      var d := ds[|ds| - 1];
      Submit(After(s, ds[..|ds| - 1]), d.key, d.payload, d.faults).0
  }

  function Empty(durable: bool): State {
    State(durable, map[], map[], 0)
  }

  /*** What every history of deliveries keeps ***/

  predicate Inv(s: State) {
    && (forall k :: k in s.claims ==> k != "" && s.claims[k].runID < s.next)
    && (forall j, k :: j in s.claims && k in s.claims && j != k ==> s.claims[j].runID != s.claims[k].runID)
    && (forall r :: r in s.rows ==> r < s.next)
    && (forall r :: r in s.rows && s.rows[r] != "" ==> s.rows[r] in s.claims && s.claims[s.rows[r]].runID == r)
    && (forall k :: k in s.claims && s.claims[k].runID in s.rows ==> s.rows[s.claims[k].runID] == k)
  }

  lemma ClaimInv(s: State, key: string, payload: string)
    requires Inv(s) && key != ""
    ensures Inv(ClaimKey(s, key, payload))
  {
  }

  lemma PlainStartInv(s: State, fault: Fault)
    requires Inv(s)
    ensures Inv(Start(s.(next := s.next + 1), s.next, "", fault).0) && s.next !in s.rows
  {
  }

  lemma ClaimedStartInv(s: State, key: string, fault: Fault)
    requires Inv(s) && key in s.claims && s.claims[key].runID !in s.rows
    ensures Inv(Start(s, s.claims[key].runID, key, fault).0)
  {
  }

  lemma ReleaseInv(s: State, key: string, f: Faults)
    requires Inv(s) && key in s.claims && s.claims[key].runID !in s.rows
    ensures Inv(Release(s, key, f))
  {
  }

  lemma ClaimedRow(s: State, key: string)
    requires Inv(s) && key in s.claims && s.claims[key].runID in s.rows
    ensures s.rows[s.claims[key].runID] == key
  {
  }

  predicate Keeps(s: State, t: State) {
    t.durable == s.durable && forall r :: r in s.rows ==> r in t.rows && t.rows[r] == s.rows[r]
  }

  predicate Truthful(t: State, key: string, reply: Reply) {
    reply.Created? ==> reply.runID in t.rows && t.rows[reply.runID] == key
  }

  lemma SubmitClaimedInv(t: State, key: string, payload: string, f: Faults)
    requires Inv(t) && key in t.claims
    ensures var (u, reply) := SubmitClaimed(t, key, payload, f);
      Inv(u) && Keeps(t, u) && Truthful(u, key, reply)
  {
    hide Inv;
    if t.claims[key].runID in t.rows {
      ClaimedRow(t, key);
    } else {
      ClaimedStartInv(t, key, f.startFault);
      ReleaseInv(t, key, f);
    }
  }

  lemma SubmitInv(s: State, key: string, payload: string, f: Faults)
    requires Inv(s)
    ensures var (t, reply) := Submit(s, key, payload, f);
      && Inv(t) && Keeps(s, t)
      && (s.durable && key != "" ==> Truthful(t, key, reply))
  {
    hide Inv, SubmitClaimed;
    if key == "" || !s.durable {
      PlainStartInv(s, f.startFault);
    } else {
      ClaimInv(s, key, payload);
      SubmitClaimedInv(ClaimKey(s, key, payload), key, payload, f);
    }
  }

  lemma {:induction false} AfterInv(s: State, ds: seq<Delivery>)
    requires Inv(s)
    ensures Inv(After(s, ds)) && After(s, ds).durable == s.durable
    ensures forall r :: r in s.rows ==> r in After(s, ds).rows && After(s, ds).rows[r] == s.rows[r]
    decreases |ds|
  {
    hide Inv, Submit;
    if ds != [] {
      AfterInv(s, ds[..|ds| - 1]);
      var d := ds[|ds| - 1];
      SubmitInv(After(s, ds[..|ds| - 1]), d.key, d.payload, d.faults);
    }
  }

  lemma EmptyInv(durable: bool)
    ensures Inv(Empty(durable))
  {
  }

  /** With a submission repository, at most one run row exists for a key, whatever was delivered, lost and retried. */
  lemma AtMostOneRow(ds: seq<Delivery>, a: nat, b: nat)
    requires var s := After(Empty(true), ds);
      a in s.rows && b in s.rows && s.rows[a] == s.rows[b] && s.rows[a] != ""
    ensures a == b
  {
    hide After;
    EmptyInv(true);
    AfterInv(Empty(true), ds);
  }

  /** Every successful reply for a key carries the ID of its one row, in any later state too. */
  lemma RepliesAgree(ds: seq<Delivery>, key: string, p: string, f: Faults, later: seq<Delivery>, q: string, g: Faults)
    requires key != ""
    requires Submit(After(Empty(true), ds), key, p, f).1.Created?
    requires Submit(After(Submit(After(Empty(true), ds), key, p, f).0, later), key, q, g).1.Created?
    ensures Submit(After(Submit(After(Empty(true), ds), key, p, f).0, later), key, q, g).1
         == Submit(After(Empty(true), ds), key, p, f).1
  {
    hide After, Submit;
    EmptyInv(true);
    AfterInv(Empty(true), ds);
    var s := After(Empty(true), ds);
    SubmitInv(s, key, p, f);
    var t := Submit(s, key, p, f).0;
    AfterInv(t, later);
    SubmitInv(After(t, later), key, q, g);
    var a, b := Submit(s, key, p, f).1.runID, Submit(After(t, later), key, q, g).1.runID;
    OneRow(Submit(After(t, later), key, q, g).0, a, b);
  }

  lemma OneRow(s: State, a: nat, b: nat)
    requires Inv(s) && a in s.rows && b in s.rows && s.rows[a] == s.rows[b] && s.rows[a] != ""
    ensures a == b
  {
  }

  /*** When a submission is answered ***/

  const WORKING := Faults(Works, true, Works, true, Works)

  /** Nobody has claimed the key for another payload. */
  predicate Unchallenged(s: State, key: string, payload: string) {
    key in s.claims ==> s.claims[key].payload == payload
  }

  /**
   A replay is answered with the run the first delivery made: if the claimed run has its row, the payload is the claimed
   one, and the claim and the lookup work, the reply carries exactly the claimed ID and nothing changes.
   */
  lemma ReplayIsAnswered(ds: seq<Delivery>, key: string, f: Faults)
    requires var s := After(Empty(true), ds); key in s.claims && s.claims[key].runID in s.rows && f.claim.Works? && f.get
    ensures var s := After(Empty(true), ds);
      Submit(s, key, s.claims[key].payload, f) == (s, Created(s.claims[key].runID))
  {
    hide After;
    EmptyInv(true);
    AfterInv(Empty(true), ds);
  }

  /** As long as the claimed run has no row, a submission whose calls all work makes it, under the claimed ID, and says so. */
  lemma FirstWorkingSubmitCreates(ds: seq<Delivery>, key: string, payload: string)
    requires var s := After(Empty(true), ds);
      key != "" && Unchallenged(s, key, payload) && (key in s.claims ==> s.claims[key].runID !in s.rows)
    ensures var s := After(Empty(true), ds);
      var (t, reply) := Submit(s, key, payload, WORKING);
      && key in t.claims && t.claims[key].payload == payload && (key in s.claims ==> t.claims[key] == s.claims[key])
      && reply == Created(t.claims[key].runID) && t.claims[key].runID !in s.rows
      && t.rows == s.rows[t.claims[key].runID := key]
  {
    hide After;
    EmptyInv(true);
    AfterInv(Empty(true), ds);
  }

  /**
   Exactly when a submission with a key is answered with a run, when it is refused, and when it makes a row: the ID is the claimed
   one, or the new one if the key is free.
   */
  lemma AnsweredIff(ds: seq<Delivery>, key: string, payload: string, f: Faults)
    requires key != ""
    ensures var s := After(Empty(true), ds);
      var (t, reply) := Submit(s, key, payload, f);
      var id := if key in s.claims then s.claims[key].runID else s.next;
      var taken := f.claim.Works? && Unchallenged(s, key, payload) && f.get;
      && (reply.Created? <==> taken && (id in s.rows || f.startFault.Works?)) && (reply.Created? ==> reply.runID == id)
      && (reply.Refused? <==> f.claim.Works? && !Unchallenged(s, key, payload))
      && t.rows == (if taken && id !in s.rows && !f.startFault.FailsBefore? then s.rows[id := key] else s.rows)
  {
    hide After;
    EmptyInv(true);
    AfterInv(Empty(true), ds);
  }

  lemma ReleasedFrom(s: State, key: string, payload: string, f: Faults, k: string)
    requires Inv(s) && s.durable && key != ""
    ensures var t := Submit(s, key, payload, f).0;
      var c := if k in s.claims then s.claims[k] else Claim(payload, s.next);
      var released := k == key && f.claim.Works? && Unchallenged(s, key, payload) && f.get && c.runID !in s.rows
        && f.startFault.FailsBefore? && f.getAgain && !f.release.FailsBefore?;
      && (k in t.claims <==> (k in s.claims || (k == key && !f.claim.FailsBefore?)) && !released)
      && (k in t.claims ==> t.claims[k] == c)
  {
  }

  /**
   A key stays claimed, for the payload and ID it was claimed for, unless the start failed without leaving a row and both
   looking for one and releasing the claim worked; no other key is touched.
   */
  lemma ReleasedIff(ds: seq<Delivery>, key: string, payload: string, f: Faults, k: string)
    requires key != ""
    ensures var s := After(Empty(true), ds);
      var t := Submit(s, key, payload, f).0;
      var c := if k in s.claims then s.claims[k] else Claim(payload, s.next);
      var released := k == key && f.claim.Works? && Unchallenged(s, key, payload) && f.get && c.runID !in s.rows
        && f.startFault.FailsBefore? && f.getAgain && !f.release.FailsBefore?;
      && (k in t.claims <==> (k in s.claims || (k == key && !f.claim.FailsBefore?)) && !released)
      && (k in t.claims ==> t.claims[k] == c)
  {
    hide After;
    EmptyInv(true);
    AfterInv(Empty(true), ds);
    hide Submit;
    ReleasedFrom(After(Empty(true), ds), key, payload, f, k);
  }

  lemma SubmitUnchallenged(s: State, key: string, payload: string, d: Delivery)
    requires Unchallenged(s, key, payload) && (d.key == key ==> d.payload == payload)
    ensures Unchallenged(Submit(s, d.key, d.payload, d.faults).0, key, payload)
  {
  }

  lemma {:induction false} AfterUnchallenged(s: State, ds: seq<Delivery>, key: string, payload: string)
    requires Unchallenged(s, key, payload) && forall k :: 0 <= k < |ds| && ds[k].key == key ==> ds[k].payload == payload
    ensures Unchallenged(After(s, ds), key, payload)
    decreases |ds|
  {
    hide Submit, Unchallenged;
    if ds != [] {
      AfterUnchallenged(s, ds[..|ds| - 1], key, payload);
      SubmitUnchallenged(After(s, ds[..|ds| - 1]), key, payload, ds[|ds| - 1]);
    }
  }

  lemma WorkingSubmitCreates(s: State, key: string, payload: string)
    requires Unchallenged(s, key, payload)
    ensures Submit(s, key, payload, WORKING).1.Created?
  {
  }

  /** A different payload under a live claim is refused and creates nothing. */
  lemma DifferentPayloadIsRefused(s: State, key: string, payload: string, f: Faults)
    requires s.durable && key in s.claims && key != "" && s.claims[key].payload != payload
    ensures Submit(s, key, payload, f).0 == s
    ensures Submit(s, key, payload, f).1 == if f.claim.Works? then Refused else Failed
  {
  }

  /** Without a repository the same request delivered twice makes two runs. */
  lemma WithoutRepositoryTwice(key: string, payload: string)
    ensures var f := Faults(Works, true, Works, true, Works);
      var s := After(Empty(false), [Delivery(key, payload, f), Delivery(key, payload, f)]);
      s.rows == map[0 := "", 1 := ""]
  {
    var f := Faults(Works, true, Works, true, Works);
    var d := Delivery(key, payload, f);
    assert [d, d][..1] == [d] && [d][..0] == [];
    assert After(Empty(false), [d]) == State(false, map[], map[0 := ""], 1);
  }

  /*** The member and the retrying router ***/

  class Manager {
    const durable: bool
    var claims: map<string, Claim>
    var rows: map<nat, string>
    var next: nat

    ghost function St(): State
      reads this
    {
      State(durable, claims, rows, next)
    }

    constructor (durable: bool)
      ensures St() == Empty(durable)
    {
      this.durable, claims, rows, next := durable, map[], map[], 0;
    }

    method GenRunID() returns (id: nat)
      modifies `next
      ensures id == old(next) && next == old(next) + 1
    {
      id := next;
      next := next + 1;
    }

    method StartRun(runID: nat, key: string, fault: Fault) returns (reply: Reply)
      modifies `rows
      ensures (St(), reply) == Start(old(St()), runID, key, fault)
    {
      if fault.FailsBefore? {
        return Failed;
      }
      rows := rows[runID := key];
      return if fault.FailsAfter? then Failed else Created(runID);
    }

    method SubmitRun(key: string, payload: string, f: Faults) returns (reply: Reply)
      requires Inv(St())
      modifies this
      ensures Inv(St()) && (St(), reply) == Submit(old(St()), key, payload, f)
    {
      hide Inv;
      SubmitInv(St(), key, payload, f);
      if key == "" || !durable {
        var id := GenRunID();
        reply := StartRun(id, "", f.startFault);
        return;
      }
      if f.claim.FailsBefore? {
        return Failed;
      }
      if key !in claims {
        var id := GenRunID();
        claims := claims[key := Claim(payload, id)];
      }
      if f.claim.FailsAfter? {
        return Failed;
      }
      var c := claims[key];
      if c.payload != payload {
        return Refused;
      }
      if !f.get {
        return Failed;
      }
      if c.runID in rows {
        return Created(c.runID);
      }
      reply := StartRun(c.runID, key, f.startFault);
      if reply.Failed? {
        if f.getAgain && c.runID !in rows && !f.release.FailsBefore? {
          claims := claims - {key};
        }
      }
    }
  }

  /** What one try of the router meets: the member resolves or not, the request arrives or not, the reply is lost or not. */
  datatype Try = Try(resolves: bool, arrives: bool, replyLost: bool, faults: Faults, meanwhile: seq<Delivery>)

  datatype RouterResult = Answer(reply: Reply) | Unavailable

  /** What the member is asked meanwhile, up to try `n`, is not this key with another payload. */
  predicate NoRival(tries: seq<Try>, n: nat, key: string, payload: string) {
    forall k, h :: 0 <= k < |tries| && k <= n && 0 <= h < |tries[k].meanwhile| && tries[k].meanwhile[h].key == key ==>
      tries[k].meanwhile[h].payload == payload
  }

  /** Try `n` reaches a member all of whose calls work and its reply comes back, after tries that stayed without an answer. */
  predicate GetsThrough(tries: seq<Try>, n: nat) {
    && n < |tries| && tries[0].resolves
    && tries[n].resolves && tries[n].arrives && !tries[n].replyLost && tries[n].faults == WORKING
    && forall k :: 0 <= k < n ==> !(tries[k].resolves && tries[k].arrives) || tries[k].replyLost
  }

  /**
   The retry loop: the first try, then one per tick until a try is answered or the ticks run out.
   A request without a key gets the new one `uuid` first.  Between two tries the member may serve
   anything else, late copies of this request included.
   */
  method RouteSubmit(m: Manager, key: string, uuid: string, payload: string, tries: seq<Try>) returns (result: RouterResult)
    requires Inv(m.St()) && uuid != "" && |tries| >= 1
    modifies m
    ensures Inv(m.St())
    ensures forall r :: r in old(m.rows) ==> r in m.rows && m.rows[r] == old(m.rows)[r]
    ensures m.durable && result.Answer? && result.reply.Created? ==>
      var used := if key == "" then uuid else key;
      && result.reply.runID in m.rows && m.rows[result.reply.runID] == used
      && forall r :: r in m.rows && m.rows[r] == used ==> r == result.reply.runID
    ensures var used := if key == "" then uuid else key;
      forall n: nat :: GetsThrough(tries, n) && NoRival(tries, n, used, payload) && Unchallenged(old(m.St()), used, payload) ==>
        result.Answer? && result.reply.Created?
  {
    var used := key;
    if used == "" {
      used := uuid;
    }
    hide Inv, Submit, Unchallenged;
    result := Unavailable;
    ghost var free := Unchallenged(m.St(), used, payload);
    for n := 0 to |tries|
      invariant Inv(m.St()) && result.Unavailable?
      invariant forall r :: r in old(m.rows) ==> r in m.rows && m.rows[r] == old(m.rows)[r]
      invariant forall k: nat :: k < n ==> !GetsThrough(tries, k)
      invariant free && (n > 0 ==> NoRival(tries, n - 1, used, payload)) ==> Unchallenged(m.St(), used, payload)
    {
      var t := tries[n];
      ghost var before0 := m.St();
      Serve(m, t.meanwhile);
      if free && NoRival(tries, n, used, payload) {
        assert n > 0 ==> NoRival(tries, n - 1, used, payload);
        AfterUnchallenged(before0, t.meanwhile, used, payload);
      }
      if !t.resolves {
        if n == 0 {
          return Unavailable;
        }
        continue;
      }
      if t.arrives {
        ghost var before := m.St();
        var reply := m.SubmitRun(used, payload, t.faults);
        SubmitInv(before, used, payload, t.faults);
        if Unchallenged(before, used, payload) {
          SubmitUnchallenged(before, used, payload, Delivery(used, payload, t.faults));
          WorkingSubmitCreates(before, used, payload);
        }
        if !t.replyLost {
          if m.durable && reply.Created? { OneRowForKey(m.St(), used, reply.runID); }
          return Answer(reply);
        }
      }
    }
  }

  lemma OneRowForKey(s: State, key: string, id: nat)
    requires Inv(s) && id in s.rows && s.rows[id] == key && key != ""
    ensures forall r :: r in s.rows && s.rows[r] == key ==> r == id
  {
  }

  method Serve(m: Manager, ds: seq<Delivery>)
    requires Inv(m.St())
    modifies m
    ensures Inv(m.St()) && m.St() == After(old(m.St()), ds)
    ensures forall r :: r in old(m.rows) ==> r in m.rows && m.rows[r] == old(m.rows)[r]
  {
    hide Inv, Submit;
    ghost var s0 := m.St();
    for n := 0 to |ds|
      invariant Inv(m.St()) && m.St() == After(s0, ds[..n])
    {
      assert ds[..n + 1][..n] == ds[..n];
      var _ := m.SubmitRun(ds[n].key, ds[n].payload, ds[n].faults);
    }
    assert ds[..|ds|] == ds;
    AfterInv(s0, ds);
  }
}
