/** The challenge store behind agent ownership proofs: nonces are issued, presented once, and expire. */
module AgentAuth {
  import opened Common
  import CanonicalJson
  import CanonicalProof

  type Nonce = string

  const MAX_PENDING_CHALLENGES := 10_000

  /** What a challenge is issued for, or a proof is presented for. */
  datatype Request = Request(purpose: string, publicKey: string, payload: CanonicalJson.Json, agentId: Option<string>)

  datatype Entry = Entry(
    nonce: Nonce, purpose: string, publicKey: string, payloadHash: string, agentId: Option<string>, expires: int)

  datatype Verdict = Authorized | ChallengeMissing | SignatureMissing | UnknownOrUsed | Expired | NotBound | BadSignature

  /** SHA-256 of the canonical payload text. */
  type HashFn = string -> string

  function EntryFor(hash: HashFn, nonce: Nonce, r: Request, expires: int): Entry {
    Entry(nonce, r.purpose, r.publicKey, hash(CanonicalJson.Canonical(r.payload)), r.agentId, expires)
  }

  /** Pending entries, oldest first, without the expired ones. */
  function Pruned(pending: seq<Entry>, now: int): seq<Entry> {
    if pending == [] then []
    else (if pending[0].expires <= now then [] else [pending[0]]) + Pruned(pending[1..], now)
  }

  /** The newest entries that leave room for one more. */
  function Room(pending: seq<Entry>): seq<Entry> {
    if |pending| >= MAX_PENDING_CHALLENGES then pending[|pending| - MAX_PENDING_CHALLENGES + 1..] else pending
  }

  function Issued(pending: seq<Entry>, now: int, e: Entry): seq<Entry> { Room(Pruned(pending, now)) + [e] }

  function Find(pending: seq<Entry>, nonce: Nonce): Option<Entry> {
    if pending == [] then None
    else if pending[0].nonce == nonce then Some(pending[0])
    else Find(pending[1..], nonce)
  }

  function Burn(pending: seq<Entry>, nonce: Nonce): seq<Entry> {
    if pending == [] then []
    else if pending[0].nonce == nonce then pending[1..]
    else [pending[0]] + Burn(pending[1..], nonce)
  }

  predicate Bound(hash: HashFn, e: Entry, r: Request) {
    && e.purpose == r.purpose && e.publicKey == r.publicKey
    && e.payloadHash == hash(CanonicalJson.Canonical(r.payload))
    && (e.agentId == None || e.agentId.value == (match r.agentId case Some(id) => id case None => ""))
  }

  function Judge(hash: HashFn, entry: Option<Entry>, r: Request, now: int, signatureOk: bool): Verdict {
    match entry
    case None => UnknownOrUsed
    case Some(e) =>
      if e.expires <= now then Expired
      else if !Bound(hash, e, r) then NotBound
      else if !signatureOk then BadSignature
      else Authorized
  }

  predicate FirstAt(pending: seq<Entry>, nonce: Nonce, i: int) {
    0 <= i < |pending| && pending[i].nonce == nonce && forall j :: 0 <= j < i ==> pending[j].nonce != nonce
  }

  /** The proof is for what the challenge was issued for: purpose, key, payload and, if one was named, the agent. */
  predicate Matches(hash: HashFn, e: Entry, r: Request) {
    && r.purpose == e.purpose && r.publicKey == e.publicKey && hash(CanonicalJson.Canonical(r.payload)) == e.payloadHash
    && (e.agentId.Some? ==> r.agentId == e.agentId || (r.agentId == None && e.agentId.value == ""))
  }

  /** The verdict on a proof whose challenge is `e`: what is wrong first, and authorised if nothing is. */
  predicate Answers(hash: HashFn, e: Entry, r: Request, now: int, signatureOk: bool, v: Verdict) {
    && (v == Expired <==> e.expires <= now)
    && (v == NotBound <==> now < e.expires && !Matches(hash, e, r))
    && (v == BadSignature <==> now < e.expires && Matches(hash, e, r) && !signatureOk)
    && (v == Authorized <==> now < e.expires && Matches(hash, e, r) && signatureOk)
  }

  /** What presenting a nonce does: one that is not pending is refused, the first entry with it decides and is burnt. */
  ghost predicate Presented(hash: HashFn, pending: seq<Entry>, nonce: Nonce, r: Request, now: int, signatureOk: bool,
                            v: Verdict, after: seq<Entry>) {
    && ((forall e :: e in pending ==> e.nonce != nonce) ==> v == UnknownOrUsed && after == pending)
    && (forall i :: FirstAt(pending, nonce, i) ==>
          Answers(hash, pending[i], r, now, signatureOk, v) && after == pending[..i] + pending[i + 1..])
  }

  lemma PresentedIs(hash: HashFn, pending: seq<Entry>, nonce: Nonce, r: Request, now: int, signatureOk: bool)
    ensures Presented(hash, pending, nonce, r, now, signatureOk,
                      Judge(hash, Find(pending, nonce), r, now, signatureOk), Burn(pending, nonce))
  {
    if forall e :: e in pending ==> e.nonce != nonce { FoundNone(pending, nonce); }
    forall i | FirstAt(pending, nonce, i)
      ensures Find(pending, nonce) == Some(pending[i]) && Burn(pending, nonce) == pending[..i] + pending[i + 1..]
      ensures Answers(hash, pending[i], r, now, signatureOk, Judge(hash, Some(pending[i]), r, now, signatureOk)) {
      FoundFirst(pending, nonce, i);
      JudgeIs(hash, pending[i], r, now, signatureOk);
    }
    hide Find, Burn, Answers, Bound;
  }

  lemma {:induction false} FoundNone(pending: seq<Entry>, nonce: Nonce)
    requires forall e :: e in pending ==> e.nonce != nonce
    ensures Find(pending, nonce) == None && Burn(pending, nonce) == pending
  {
    if pending != [] { FoundNone(pending[1..], nonce); }
  }

  lemma {:induction false} FoundFirst(pending: seq<Entry>, nonce: Nonce, i: int)
    requires FirstAt(pending, nonce, i)
    ensures Find(pending, nonce) == Some(pending[i]) && Burn(pending, nonce) == pending[..i] + pending[i + 1..]
  {
    if i > 0 {
      assert pending[0].nonce != nonce;
      forall j | 0 <= j < i - 1 ensures pending[1..][j].nonce != nonce { assert pending[j + 1].nonce != nonce; }
      FoundFirst(pending[1..], nonce, i - 1);
    }
  }

  lemma JudgeIs(hash: HashFn, e: Entry, r: Request, now: int, signatureOk: bool)
    ensures Answers(hash, e, r, now, signatureOk, Judge(hash, Some(e), r, now, signatureOk))
  {
  }

  class ChallengeStore {
    const hash: HashFn
    var pending: seq<Entry>

    constructor (hash: HashFn)
      ensures this.hash == hash && pending == []
    {
      this.hash, pending := hash, [];
    }

    /** Mint a challenge; `nonce` is fresh randomness. */
    method Issue(nonce: Nonce, r: Request, now: int, ttl: int)
      modifies this
      ensures pending == Issued(old(pending), now, EntryFor(hash, nonce, r, now + ttl))
    {
      Prune(now);
      while |pending| >= MAX_PENDING_CHALLENGES
        invariant Room(pending) == Room(Pruned(old(pending), now))
        decreases |pending|
      {
        pending := pending[1..];
      }
      pending := pending + [EntryFor(hash, nonce, r, now + ttl)];
    }

    method Prune(now: int)
      modifies this
      ensures pending == Pruned(old(pending), now)
    {
      var kept: seq<Entry> := [];
      var i := 0;
      while i < |pending|
        invariant 0 <= i <= |pending| && pending == old(pending)
        invariant Pruned(pending, now) == kept + Pruned(pending[i..], now)
      {
        assert pending[i..][1..] == pending[i + 1..];
        if pending[i].expires > now {
          kept := kept + [pending[i]];
        }
        i := i + 1;
      }
      assert pending[i..] == [];
      pending := kept;
    }

    /** Judge a proof; a nonce that is found is burnt whatever the outcome. */
    method Verify(challenge: Option<Nonce>, hasSignature: bool, r: Request, now: int, signatureOk: bool)
      returns (v: Verdict)
      modifies this
      ensures challenge == None ==> v == ChallengeMissing && pending == old(pending)
      ensures challenge != None && !hasSignature ==> v == SignatureMissing && pending == old(pending)
      ensures challenge != None && hasSignature ==>
                && v == Judge(hash, Find(old(pending), challenge.value), r, now, signatureOk)
                && pending == Burn(old(pending), challenge.value)
      ensures challenge != None && hasSignature ==>
                Presented(hash, old(pending), challenge.value, r, now, signatureOk, v, pending)
    {
      if challenge == None {
        return ChallengeMissing;
      }
      if !hasSignature {
        return SignatureMissing;
      }
      PresentedIs(hash, pending, challenge.value, r, now, signatureOk);
      hide Presented, Find, Burn;
      var entry := Take(challenge.value);
      v := Judge(hash, entry, r, now, signatureOk);
    }

    /** Look the nonce up and burn it. */
    method Take(nonce: Nonce) returns (entry: Option<Entry>)
      modifies this
      ensures entry == Find(old(pending), nonce) && pending == Burn(old(pending), nonce)
    {
      var i := 0;
      while i < |pending| && pending[i].nonce != nonce
        invariant 0 <= i <= |pending| && pending == old(pending)
        invariant forall j :: 0 <= j < i ==> pending[j].nonce != nonce
      {
        i := i + 1;
      }
      if i == |pending| {
        FoundNone(pending, nonce);
        return None;
      }
      FoundFirst(pending, nonce, i);
      entry := Some(pending[i]);
      pending := pending[..i] + pending[i + 1..];
    }
  }

  // ------------------------------------------------------------------ runs

  datatype Step =
    | IssueStep(nonce: Nonce, request: Request, now: int, ttl: int)
    | VerifyStep(nonce: Nonce, request: Request, now: int, signatureOk: bool)

  datatype State = State(
    pending: seq<Entry>,
    issues: map<Nonce, Entry>,           // log: the entry each nonce was issued with
    requests: map<Nonce, Request>,       // log: and the request
    presented: set<Nonce>,               // log: nonces found by a verification
    authorized: seq<Nonce>)              // log: nonces that authorised a request, in order

  predicate Enabled(s: State, step: Step) { step.IssueStep? ==> step.nonce !in s.issues }

  function Apply(hash: HashFn, s: State, step: Step): State {
    match step
    case IssueStep(n, r, now, ttl) =>
      var e := EntryFor(hash, n, r, now + ttl);
      s.(pending := Issued(s.pending, now, e), issues := s.issues[n := e], requests := s.requests[n := r])
    case VerifyStep(n, r, now, ok) =>
      var entry := Find(s.pending, n);
      s.(pending := Burn(s.pending, n),
         presented := if entry.Some? then s.presented + {n} else s.presented,
         authorized := if Judge(hash, entry, r, now, ok) == Authorized then s.authorized + [n] else s.authorized)
  }

  predicate IsRun(hash: HashFn, s: State, steps: seq<Step>)
    decreases |steps|
  {
    steps == [] || (Enabled(s, steps[0]) && IsRun(hash, Apply(hash, s, steps[0]), steps[1..]))
  }

  function After(hash: HashFn, s: State, steps: seq<Step>): State
    decreases |steps|
  {
    if steps == [] then s else After(hash, Apply(hash, s, steps[0]), steps[1..])
  }

  const EMPTY := State([], map[], map[], {}, [])

  predicate DistinctNonces(pending: seq<Entry>) {
    forall i, j :: 0 <= i < j < |pending| ==> pending[i].nonce != pending[j].nonce
  }

  /** Nonce `n` was issued with the entry of its request. */
  predicate IssueOk(hash: HashFn, s: State, n: Nonce) {
    n in s.issues ==> n in s.requests && s.issues[n] == EntryFor(hash, n, s.requests[n], s.issues[n].expires)
  }

  ghost predicate Inv(hash: HashFn, s: State) {
    && |s.pending| <= MAX_PENDING_CHALLENGES && DistinctNonces(s.pending)
    && (forall e :: e in s.pending ==> e.nonce in s.issues && s.issues[e.nonce] == e && e.nonce !in s.presented)
    && (forall n :: n in s.presented ==> n in s.issues)
    && (forall n :: IssueOk(hash, s, n))
    && NoDup(s.authorized) && (forall n :: n in s.authorized ==> n in s.presented)
  }

  lemma {:induction false} PrunedIs(pending: seq<Entry>, now: int)
    requires DistinctNonces(pending)
    ensures DistinctNonces(Pruned(pending, now)) && |Pruned(pending, now)| <= |pending|
    ensures forall e :: e in Pruned(pending, now) <==> e in pending && e.expires > now
  {
    if pending != [] {
      PrunedIs(pending[1..], now);
      assert forall e :: e in pending <==> e == pending[0] || e in pending[1..];
      forall e | e in pending[1..] ensures e.nonce != pending[0].nonce { }
    }
  }

  lemma {:induction false} BurnIs(pending: seq<Entry>, n: Nonce)
    requires DistinctNonces(pending)
    ensures DistinctNonces(Burn(pending, n)) && |Burn(pending, n)| <= |pending|
    ensures forall e :: e in Burn(pending, n) <==> e in pending && e.nonce != n
    ensures match Find(pending, n) case Some(e) => e in pending && e.nonce == n
                                   case None => forall e :: e in pending ==> e.nonce != n
  {
    if pending != [] {
      BurnIs(pending[1..], n);
      assert forall e :: e in pending <==> e == pending[0] || e in pending[1..];
      forall e | e in pending[1..] ensures e.nonce != pending[0].nonce { }
    }
  }

  lemma IssueKeeps(hash: HashFn, s: State, n: Nonce, r: Request, now: int, ttl: int)
    requires Inv(hash, s) && n !in s.issues
    ensures Inv(hash, Apply(hash, s, IssueStep(n, r, now, ttl)))
  {
    PrunedIs(s.pending, now);
    var e := EntryFor(hash, n, r, now + ttl);
    assert e.nonce == n && e == EntryFor(hash, n, r, e.expires);
    IssuedIs(s.pending, now, e);
    hide Pruned, Room, Issued, EntryFor, DistinctNonces, Burn, Find, Judge;
    var t := Apply(hash, s, IssueStep(n, r, now, ttl));
    assert t == s.(pending := Issued(s.pending, now, e), issues := s.issues[n := e], requests := s.requests[n := r]);
    hide Apply;
    forall m ensures IssueOk(hash, t, m) { assert IssueOk(hash, s, m); }
    forall f | f in t.pending ensures f.nonce in t.issues && t.issues[f.nonce] == f && f.nonce !in t.presented {
      if f != e { assert f in s.pending; }
    }
  }

  lemma IssuedIs(pending: seq<Entry>, now: int, e: Entry)
    requires DistinctNonces(pending) && |pending| <= MAX_PENDING_CHALLENGES && forall f :: f in pending ==> f.nonce != e.nonce
    ensures DistinctNonces(Issued(pending, now, e)) && |Issued(pending, now, e)| <= MAX_PENDING_CHALLENGES
    ensures forall f :: f in Issued(pending, now, e) ==> f == e || f in pending
  {
    PrunedIs(pending, now);
    var kept := Room(Pruned(pending, now));
    hide Pruned;
    assert forall f :: f in kept ==> f in Pruned(pending, now);
    assert forall i :: 0 <= i < |kept| ==> kept[i] in kept;
  }

  lemma VerifyKeeps(hash: HashFn, s: State, n: Nonce, r: Request, now: int, ok: bool)
    requires Inv(hash, s)
    ensures Inv(hash, Apply(hash, s, VerifyStep(n, r, now, ok)))
  {
    BurnIs(s.pending, n);
    hide Burn, Find, DistinctNonces, Judge, EntryFor;
    var t := Apply(hash, s, VerifyStep(n, r, now, ok));
    forall m ensures IssueOk(hash, t, m) { assert IssueOk(hash, s, m); }
    JudgeNone(hash, r, now, ok);
    if Find(s.pending, n).Some? {
      assert n !in s.presented;
      NoDupSnoc(s.authorized, n);
    }
  }

  lemma JudgeNone(hash: HashFn, r: Request, now: int, ok: bool)
    ensures Judge(hash, None, r, now, ok) != Authorized
  {
  }

  lemma {:induction false} RunKeepsInv(hash: HashFn, s: State, steps: seq<Step>)
    requires Inv(hash, s) && IsRun(hash, s, steps)
    ensures Inv(hash, After(hash, s, steps))
    decreases |steps|
  {
    if steps != [] {
      hide Inv, Apply;
      match steps[0] {
        case IssueStep(n, r, now, ttl) => IssueKeeps(hash, s, n, r, now, ttl);
        case VerifyStep(n, r, now, ok) => VerifyKeeps(hash, s, n, r, now, ok);
      }
      RunKeepsInv(hash, Apply(hash, s, steps[0]), steps[1..]);
    }
  }

  /** Single use: over any run a nonce authorises at most one request, and no more than the cap are outstanding. */
  lemma SingleUse(hash: HashFn, steps: seq<Step>)
    requires IsRun(hash, EMPTY, steps)
    ensures NoDup(After(hash, EMPTY, steps).authorized)
    ensures |After(hash, EMPTY, steps).pending| <= MAX_PENDING_CHALLENGES
  {
    RunKeepsInv(hash, EMPTY, steps);
  }

  /** A presented nonce is spent, even when the proof failed: presenting it again is refused. */
  lemma PresentedIsSpent(hash: HashFn, steps: seq<Step>, n: Nonce, r: Request, now: int, ok: bool)
    requires IsRun(hash, EMPTY, steps) && n in After(hash, EMPTY, steps).presented
    ensures Judge(hash, Find(After(hash, EMPTY, steps).pending, n), r, now, ok) == UnknownOrUsed
  {
    RunKeepsInv(hash, EMPTY, steps);
    BurnIs(After(hash, EMPTY, steps).pending, n);
  }

  /** An authorised request is the one its challenge was issued for: same purpose, key and payload,
      up to key order, before expiry and with a valid signature. */
  lemma AuthorizedIsBound(hash: HashFn, steps: seq<Step>, n: Nonce, r: Request, now: int, ok: bool)
    requires IsRun(hash, EMPTY, steps)
    requires forall a, b :: hash(a) == hash(b) ==> a == b
    requires var s := After(hash, EMPTY, steps);
             && Judge(hash, Find(s.pending, n), r, now, ok) == Authorized
             && CanonicalJson.Proper(r.payload) && (n in s.requests ==> CanonicalJson.Proper(s.requests[n].payload))
    ensures var s := After(hash, EMPTY, steps);
            && n in s.issues && n in s.requests && ok && now < s.issues[n].expires && n !in s.authorized
            && s.requests[n].purpose == r.purpose && s.requests[n].publicKey == r.publicKey
            && CanonicalJson.Same(s.requests[n].payload, r.payload)
            && (s.requests[n].agentId.Some? ==>
                  s.requests[n].agentId.value == match r.agentId case Some(id) => id case None => "")
  {
    RunKeepsInv(hash, EMPTY, steps);
    var s := After(hash, EMPTY, steps);
    BurnIs(s.pending, n);
    hide CanonicalJson.Canonical, CanonicalJson.Same, CanonicalJson.Proper;
    var e := Find(s.pending, n).value;
    assert IssueOk(hash, s, n);
    assert s.issues[n] == e == EntryFor(hash, n, s.requests[n], e.expires);
    CanonicalProof.TextIffSame(s.requests[n].payload, r.payload);
  }

  /** The nonce is pending and unexpired, the signature good, and the request the one the challenge was issued for,
      up to key order of the payload. */
  ghost predicate Acceptable(s: State, n: Nonce, r: Request, now: int, ok: bool) {
    && (exists e :: e in s.pending && e.nonce == n) && n in s.issues && n in s.requests
    && ok && now < s.issues[n].expires
    && s.requests[n].purpose == r.purpose && s.requests[n].publicKey == r.publicKey
    && CanonicalJson.Same(s.requests[n].payload, r.payload)
    && (s.requests[n].agentId.Some? ==>
          s.requests[n].agentId.value == match r.agentId case Some(id) => id case None => "")
  }

  /** Over any run a proof is authorised, and recorded as such, if and only if it is acceptable. */
  lemma AuthorizedIff(hash: HashFn, steps: seq<Step>, n: Nonce, r: Request, now: int, ok: bool)
    requires IsRun(hash, EMPTY, steps)
    requires forall a, b :: hash(a) == hash(b) ==> a == b
    requires var s := After(hash, EMPTY, steps);
             CanonicalJson.Proper(r.payload) && (n in s.requests ==> CanonicalJson.Proper(s.requests[n].payload))
    ensures var s := After(hash, EMPTY, steps);
            && (Judge(hash, Find(s.pending, n), r, now, ok) == Authorized <==> Acceptable(s, n, r, now, ok))
            && Apply(hash, s, VerifyStep(n, r, now, ok)).authorized
               == s.authorized + if Acceptable(s, n, r, now, ok) then [n] else []
  {
    RunKeepsInv(hash, EMPTY, steps);
    var s := After(hash, EMPTY, steps);
    BurnIs(s.pending, n);
    hide CanonicalJson.Canonical, CanonicalJson.Same, CanonicalJson.Proper;
    if e :| e in s.pending && e.nonce == n {
      assert Find(s.pending, n) == Some(e) && s.issues[n] == e;
      assert IssueOk(hash, s, n);
      CanonicalProof.TextIffSame(s.requests[n].payload, r.payload);
      SameTexts(hash, s.requests[n].payload, r.payload);
    }
  }

  lemma SameTexts(hash: HashFn, a: CanonicalJson.Json, b: CanonicalJson.Json)
    requires forall x, y :: hash(x) == hash(y) ==> x == y
    ensures hash(CanonicalJson.Canonical(a)) == hash(CanonicalJson.Canonical(b))
            <==> CanonicalJson.Canonical(a) == CanonicalJson.Canonical(b)
  {
  }

  // ------------------------------------------------------------------ eviction

  /** The unexpired entries before position `i`. */
  function Fresh(pending: seq<Entry>, now: int, i: int): set<int> {
    set j | 0 <= j < i && j < |pending| && pending[j].expires > now
  }

  lemma PrunedSnoc(pending: seq<Entry>, e: Entry, now: int)
    ensures Pruned(pending + [e], now) == Pruned(pending, now) + if e.expires > now then [e] else []
  {
    if pending != [] {
      PrunedSnoc(pending[1..], e, now);
      assert (pending + [e])[1..] == pending[1..] + [e];
    }
  }

  lemma FreshSnoc(front: seq<Entry>, e: Entry, now: int, i: int)
    requires 0 <= i <= |front| + 1
    ensures i <= |front| ==> Fresh(front + [e], now, i) == Fresh(front, now, i)
    ensures i == |front| + 1 ==>
              Fresh(front + [e], now, i) == Fresh(front, now, |front|) + if e.expires > now then {|front|} else {}
  {
  }

  ghost predicate PlacedAt(pending: seq<Entry>, now: int, p: seq<Entry>, i: int) {
    0 <= i < |pending| && pending[i].expires > now ==>
      |Fresh(pending, now, i)| < |p| && p[|Fresh(pending, now, i)|] == pending[i]
  }

  /** Pruning keeps the unexpired entries, each behind those before it. */
  lemma {:induction false} PrunedPlaces(pending: seq<Entry>, now: int)
    ensures |Pruned(pending, now)| == |Fresh(pending, now, |pending|)|
    ensures forall i :: PlacedAt(pending, now, Pruned(pending, now), i)
  {
    if pending == [] {
      assert Fresh(pending, now, 0) == {};
    } else {
      hide Pruned, PlacedAt, Fresh;
      var k := |pending| - 1;
      PrunedPlaces(pending[..k], now);
      PrunedSnoc(pending[..k], pending[k], now);
      assert pending == pending[..k] + [pending[k]];
      PlacesSnoc(pending[..k], pending[k], now, Pruned(pending[..k], now), Pruned(pending, now));
    }
  }

  lemma PlacesSnoc(front: seq<Entry>, e: Entry, now: int, was: seq<Entry>, p: seq<Entry>)
    requires |was| == |Fresh(front, now, |front|)| && forall i :: PlacedAt(front, now, was, i)
    requires p == was + if e.expires > now then [e] else []
    ensures |p| == |Fresh(front + [e], now, |front| + 1)|
    ensures forall i :: PlacedAt(front + [e], now, p, i)
  {
    FreshSnoc(front, e, now, |front| + 1);
    assert |front| !in Fresh(front, now, |front|);
    forall i ensures PlacedAt(front + [e], now, p, i) {
      if 0 <= i <= |front| {
        FreshSnoc(front, e, now, i);
        assert PlacedAt(front, now, was, i);
      }
    }
  }

  lemma FreshBefore(pending: seq<Entry>, now: int, i: nat)
    requires i < |pending|
    ensures |Fresh(pending, now, i)| > 0 <==> exists j :: 0 <= j < i && pending[j].expires > now
    ensures Fresh(pending, now, |pending|) == set j | 0 <= j < |pending| && pending[j].expires > now
  {
    if j :| 0 <= j < i && pending[j].expires > now { assert j in Fresh(pending, now, i); }
    if |Fresh(pending, now, i)| > 0 {
      var j :| j in Fresh(pending, now, i);
    }
  }

  /** Issuing drops an unexpired challenge exactly when the store is full and it is the oldest unexpired one,
      whoever it belongs to. */
  lemma EvictsOldestIff(pending: seq<Entry>, now: int, e: Entry, i: nat)
    requires |pending| <= MAX_PENDING_CHALLENGES && DistinctNonces(pending)
    requires i < |pending| && pending[i].expires > now && pending[i].nonce != e.nonce
    ensures pending[i] in Issued(pending, now, e)
            <==> |set j | 0 <= j < |pending| && pending[j].expires > now| < MAX_PENDING_CHALLENGES
                 || exists j :: 0 <= j < i && pending[j].expires > now
  {
    PrunedIs(pending, now);
    PrunedPlaces(pending, now);
    FreshBefore(pending, now, i);
    var p, place := Pruned(pending, now), |Fresh(pending, now, i)|;
    assert PlacedAt(pending, now, p, i);
    hide Pruned, Fresh, Room;
    RoomKeeps(p, place);
    assert pending[i] != e;
  }

  lemma RoomKeeps(p: seq<Entry>, place: nat)
    requires place < |p| <= MAX_PENDING_CHALLENGES && DistinctNonces(p)
    ensures p[place] in Room(p) <==> |p| < MAX_PENDING_CHALLENGES || place > 0
  {
    if |p| == MAX_PENDING_CHALLENGES {
      assert Room(p) == p[1..];
      if place > 0 { assert p[1..][place - 1] == p[place]; }
    }
  }

  ghost predicate InOrder(pending: seq<Entry>, f: Entry, g: Entry) {
    exists i, j :: 0 <= i < j < |pending| && pending[i] == f && pending[j] == g
  }

  /** What stays keeps its order, and the new challenge comes last. */
  lemma IssuedOrder(pending: seq<Entry>, now: int, e: Entry)
    ensures var after := Issued(pending, now, e);
            && after != [] && after[|after| - 1] == e && |after| <= MAX_PENDING_CHALLENGES
            && forall a, b :: 0 <= a < b < |after| - 1 ==> InOrder(pending, after[a], after[b])
  {
    var p := Pruned(pending, now);
    var d := RoomIsSuffix(p);
    hide Pruned, InOrder, Room;
    var after := Issued(pending, now, e);
    assert after == p[d..] + [e];
    forall a, b | 0 <= a < b < |after| - 1 ensures InOrder(pending, after[a], after[b]) {
      PrunedInOrder(pending, now, a + d, b + d);
    }
  }

  lemma RoomIsSuffix(p: seq<Entry>) returns (d: nat)
    ensures d <= |p| && Room(p) == p[d..] && |p| - d < MAX_PENDING_CHALLENGES
  {
    d := if |p| >= MAX_PENDING_CHALLENGES then |p| - MAX_PENDING_CHALLENGES + 1 else 0;
  }

  lemma InOrderTail(pending: seq<Entry>, f: Entry, g: Entry)
    requires pending != [] && InOrder(pending[1..], f, g)
    ensures InOrder(pending, f, g)
  {
    var i, j :| 0 <= i < j < |pending[1..]| && pending[1..][i] == f && pending[1..][j] == g;
    assert pending[i + 1] == f && pending[j + 1] == g;
  }

  lemma InOrderHead(pending: seq<Entry>, g: Entry)
    requires pending != [] && g in pending[1..]
    ensures InOrder(pending, pending[0], g)
  {
    var j :| 0 <= j < |pending[1..]| && pending[1..][j] == g;
    assert pending[j + 1] == g;
  }

  lemma {:induction false} PrunedIn(pending: seq<Entry>, now: int)
    ensures forall f :: f in Pruned(pending, now) ==> f in pending
  {
    if pending != [] { PrunedIn(pending[1..], now); }
  }

  lemma {:induction false} PrunedInOrder(pending: seq<Entry>, now: int, a: nat, b: nat)
    requires a < b < |Pruned(pending, now)|
    ensures InOrder(pending, Pruned(pending, now)[a], Pruned(pending, now)[b])
  {
    hide InOrder;
    var rest := Pruned(pending[1..], now);
    if pending[0].expires <= now {
      PrunedInOrder(pending[1..], now, a, b);
      InOrderTail(pending, rest[a], rest[b]);
    } else if a == 0 {
      PrunedIn(pending[1..], now);
      InOrderHead(pending, rest[b - 1]);
    } else {
      PrunedInOrder(pending[1..], now, a - 1, b - 1);
      InOrderTail(pending, rest[a - 1], rest[b - 1]);
    }
  }
}
