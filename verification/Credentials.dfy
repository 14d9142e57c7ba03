/** Credential use of src/store/credentials.ts: one transaction that releases a secret for a
    call, counting every (run, key) pair of a grant once. Candidate filtering, the approval
    lookup and decryption are answers from outside. */
module Credentials {
  import opened Prelude

  type GrantId = nat
  type CredentialId = nat

  datatype Grant = Grant(credential: CredentialId, requiresApproval: bool, maxUses: Option<nat>, uses: nat)

  datatype Credential = Credential(maxUses: Option<nat>, uses: nat)

  /** What the call presents: caller, purpose, action and resource. */
  datatype Purpose = Purpose(caller: string, purpose: string, action: string, resource: string)

  datatype Pair = Pair(run: string, key: string)

  datatype UseReceipt = UseReceipt(grant: GrantId, pair: Pair, approval: Option<string>, purpose: Purpose)

  datatype Tables = Tables(credentials: seq<Credential>, grants: seq<Grant>, receipts: seq<UseReceipt>)

  // ------------------------------------------------------------------- exact counters

  /** The distinct calls a grant has been used for. */
  function PairsOf(receipts: seq<UseReceipt>, g: GrantId): set<Pair>
  {
    set i | 0 <= i < |receipts| && receipts[i].grant == g :: receipts[i].pair
  }

  function UsesOf(grants: seq<Grant>, c: CredentialId): nat
  {
    if grants == [] then 0
    else
      var n := |grants| - 1;
      UsesOf(grants[..n], c) + (if grants[n].credential == c then grants[n].uses else 0)
  }

  predicate WithinLimit(uses: nat, limit: Option<nat>) { limit.Some? ==> uses <= limit.value }

  predicate HasRoom(uses: nat, limit: Option<nat>) { limit.Some? ==> uses < limit.value }

  /** A grant's counter is the number of its distinct pairs, a credential's the sum over its
      grants, and no counter exceeds its limit. */
  ghost predicate Exact(t: Tables)
  {
    && (forall i :: 0 <= i < |t.receipts| ==> t.receipts[i].grant < |t.grants|)
    && (forall g :: 0 <= g < |t.grants| ==>
          && t.grants[g].credential < |t.credentials|
          && t.grants[g].uses == |PairsOf(t.receipts, g)|
          && WithinLimit(t.grants[g].uses, t.grants[g].maxUses))
    && (forall c :: 0 <= c < |t.credentials| ==>
          t.credentials[c].uses == UsesOf(t.grants, c) && WithinLimit(t.credentials[c].uses, t.credentials[c].maxUses))
  }

  lemma {:induction false} UnusedCredential(grants: seq<Grant>, c: CredentialId)
    requires forall g :: 0 <= g < |grants| ==> grants[g].credential < c
    ensures UsesOf(grants, c) == 0
  {
    if grants != [] {
      UnusedCredential(grants[..|grants| - 1], c);
    }
  }

  lemma PairsAppend(receipts: seq<UseReceipt>, r: UseReceipt, g: GrantId)
    ensures PairsOf(receipts + [r], g) == PairsOf(receipts, g) + (if r.grant == g then {r.pair} else {})
  {
    var after := receipts + [r];
    forall p | p in PairsOf(receipts, g)
      ensures p in PairsOf(after, g)
    {
      var i :| 0 <= i < |receipts| && receipts[i].grant == g && receipts[i].pair == p;
      assert after[i].grant == g && after[i].pair == p;
    }
    if r.grant == g {
      assert after[|receipts|] == r;
    }
  }

  lemma {:induction false} UsesRaised(grants: seq<Grant>, g: GrantId, c: CredentialId)
    requires g < |grants|
    ensures UsesOf(grants[g := grants[g].(uses := grants[g].uses + 1)], c)
         == UsesOf(grants, c) + (if grants[g].credential == c then 1 else 0)
  {
    var n := |grants| - 1;
    var raised := grants[g := grants[g].(uses := grants[g].uses + 1)];
    if g == n {
      assert raised[..n] == grants[..n];
    } else {
      UsesRaised(grants[..n], g, c);
      assert raised[..n] == grants[..n][g := grants[..n][g].(uses := grants[..n][g].uses + 1)];
    }
  }

  /** A receipt for a pair that already has one counts nothing. */
  lemma RebindKeepsExact(t: Tables, r: UseReceipt)
    requires Exact(t) && r.grant < |t.grants| && r.pair in PairsOf(t.receipts, r.grant)
    ensures Exact(t.(receipts := t.receipts + [r]))
  {
    forall g | 0 <= g < |t.grants|
      ensures PairsOf(t.receipts + [r], g) == PairsOf(t.receipts, g)
    {
      PairsAppend(t.receipts, r, g);
    }
  }

  /** A new pair counts once, on its grant and on that grant's credential. */
  function Charged(t: Tables, g: GrantId, r: UseReceipt): Tables
    requires g < |t.grants| && t.grants[g].credential < |t.credentials|
  {
    var c := t.grants[g].credential;
    Tables(t.credentials[c := t.credentials[c].(uses := t.credentials[c].uses + 1)],
           t.grants[g := t.grants[g].(uses := t.grants[g].uses + 1)],
           t.receipts + [r])
  }

  lemma ChargeKeepsExact(t: Tables, g: GrantId, r: UseReceipt)
    requires Exact(t) && g < |t.grants| && r.grant == g && r.pair !in PairsOf(t.receipts, g)
    requires HasRoom(t.grants[g].uses, t.grants[g].maxUses)
    requires HasRoom(t.credentials[t.grants[g].credential].uses, t.credentials[t.grants[g].credential].maxUses)
    ensures Exact(Charged(t, g, r))
  {
    forall h | 0 <= h < |t.grants|
      ensures |PairsOf(t.receipts + [r], h)| == |PairsOf(t.receipts, h)| + (if h == g then 1 else 0)
    {
      PairsAppend(t.receipts, r, h);
    }
    forall c | 0 <= c < |t.credentials|
      ensures UsesOf(Charged(t, g, r).grants, c) == UsesOf(t.grants, c) + (if t.grants[g].credential == c then 1 else 0)
    {
      UsesRaised(t.grants, g, c);
    }
  }

  // ----------------------------------------------------------------- the transaction

  /** approval: the validated approval, if any. opens: decryption succeeded while the grant was
      still authorized. */
  datatype Request = Request(
    candidates: seq<GrantId>, pair: Pair, purpose: Purpose, approval: Option<string>, opens: GrantId -> bool)

  // -------------------------------------------------------------- the exact answer

  ghost predicate Permitted(t: Tables, req: Request, g: GrantId)
  {
    g < |t.grants| && (t.grants[g].requiresApproval ==> req.approval.Some?)
  }

  /** The grant has been used for this call before. */
  ghost predicate Used(t: Tables, req: Request, g: GrantId)
  {
    exists i :: 0 <= i < |t.receipts| && t.receipts[i].grant == g && t.receipts[i].pair == req.pair
  }

  ghost predicate CanPay(t: Tables, g: GrantId)
  {
    && g < |t.grants| && t.grants[g].credential < |t.credentials|
    && HasRoom(t.grants[g].uses, t.grants[g].maxUses)
    && HasRoom(t.credentials[t.grants[g].credential].uses, t.credentials[t.grants[g].credential].maxUses)
  }

  /** Candidate k is the first permitted one that has been used for the call. */
  ghost predicate FirstUsed(t: Tables, req: Request, k: nat)
  {
    && k < |req.candidates| && Permitted(t, req, req.candidates[k]) && Used(t, req, req.candidates[k])
    && forall j :: 0 <= j < k ==> !(Permitted(t, req, req.candidates[j]) && Used(t, req, req.candidates[j]))
  }

  /** Candidate k is the first permitted one with room left. */
  ghost predicate FirstPaying(t: Tables, req: Request, k: nat)
  {
    && k < |req.candidates| && Permitted(t, req, req.candidates[k]) && CanPay(t, req.candidates[k])
    && forall j :: 0 <= j < k ==> !(Permitted(t, req, req.candidates[j]) && CanPay(t, req.candidates[j]))
  }

  /** All earlier uses of the grant for this call were for the same purpose. */
  ghost predicate SamePurpose(t: Tables, req: Request, g: GrantId)
  {
    forall i :: 0 <= i < |t.receipts| && t.receipts[i].grant == g && t.receipts[i].pair == req.pair ==>
      t.receipts[i].purpose == req.purpose
  }

  ghost predicate SameApproval(t: Tables, req: Request, g: GrantId)
  {
    exists i :: 0 <= i < |t.receipts| && t.receipts[i].grant == g && t.receipts[i].pair == req.pair
                && t.receipts[i].approval == req.approval
  }

  /** Serving from an earlier receipt of candidate k: released when the purpose is the same and the
      secret still opens, with one more receipt only for a new approval. */
  ghost predicate ServedFrom(t: Tables, t': Tables, req: Request, k: nat, released: Option<GrantId>)
    requires k < |req.candidates|
  {
    var g := req.candidates[k];
    if SamePurpose(t, req, g) && req.opens(g) then
      && released == Some(g)
      && t' == (if SameApproval(t, req, g) then t
                else t.(receipts := t.receipts + [UseReceipt(g, req.pair, req.approval, req.purpose)]))
    else released.None? && t' == t
  }

  /** Charging candidate k for a new call, when the secret opens. */
  ghost predicate ChargedTo(t: Tables, t': Tables, req: Request, k: nat, released: Option<GrantId>)
    requires k < |req.candidates|
  {
    var g := req.candidates[k];
    if req.opens(g) then
      && released == Some(g) && g < |t.grants| && t.grants[g].credential < |t.credentials|
      && t' == Charged(t, g, UseReceipt(g, req.pair, req.approval, req.purpose))
    else released.None? && t' == t
  }

  /** The receipts found for a call decide its purpose and approvals. */
  lemma PriorMeans(t: Tables, req: Request, g: GrantId, prior: seq<UseReceipt>)
    requires prior != [] && forall r :: r in prior <==> r in t.receipts && r.grant == g && r.pair == req.pair
    ensures (set r | r in prior :: r.purpose) == {req.purpose} <==> SamePurpose(t, req, g)
    ensures req.approval in (set r | r in prior :: r.approval) <==> SameApproval(t, req, g)
  {
    var purposes := set r | r in prior :: r.purpose;
    forall i | 0 <= i < |t.receipts| && t.receipts[i].grant == g && t.receipts[i].pair == req.pair
      ensures t.receipts[i] in prior
    {
    }
    assert prior[0].purpose in purposes;
    if SamePurpose(t, req, g) {
      forall r | r in prior
        ensures r.purpose == req.purpose
      {
        assert r in t.receipts;
      }
      assert purposes == {req.purpose};
    }
    if purposes == {req.purpose} {
      forall i | 0 <= i < |t.receipts| && t.receipts[i].grant == g && t.receipts[i].pair == req.pair
        ensures t.receipts[i].purpose == req.purpose
      {
        assert t.receipts[i].purpose in purposes;
      }
    }
    if SameApproval(t, req, g) {
      var i :| 0 <= i < |t.receipts| && t.receipts[i].grant == g && t.receipts[i].pair == req.pair
               && t.receipts[i].approval == req.approval;
      assert t.receipts[i] in prior;
    }
  }

  lemma OnePaying(t: Tables, req: Request, k: nat)
    requires FirstPaying(t, req, k)
    ensures forall l: nat :: FirstPaying(t, req, l) ==> l == k
  {
    forall l: nat | FirstPaying(t, req, l)
      ensures l == k
    {
      assert l < k || k < l || l == k;
    }
  }

  /** A candidate has been used for the call exactly when the call is among its distinct pairs. */
  lemma UsedMeansPair(t: Tables, req: Request)
    ensures forall g :: Used(t, req, g) <==> req.pair in PairsOf(t.receipts, g)
  {
  }

  class Vault {
    var credentials: seq<Credential>
    var grants: seq<Grant>
    var receipts: seq<UseReceipt>

    constructor ()
      ensures Snapshot() == Tables([], [], []) && Exact(Snapshot())
    {
      credentials, grants, receipts := [], [], [];
    }

    method AddCredential(maxUses: Option<nat>)
      requires Exact(Snapshot())
      modifies this`credentials
      ensures credentials == old(credentials) + [Credential(maxUses, 0)] && Exact(Snapshot())
    {
      UnusedCredential(grants, |credentials|);
      credentials := credentials + [Credential(maxUses, 0)];
    }

    method AddGrant(credential: CredentialId, requiresApproval: bool, maxUses: Option<nat>)
      requires Exact(Snapshot()) && credential < |credentials|
      modifies this`grants
      ensures grants == old(grants) + [Grant(credential, requiresApproval, maxUses, 0)] && Exact(Snapshot())
    {
      var row := Grant(credential, requiresApproval, maxUses, 0);
      assert (grants + [row])[..|grants|] == grants;
      assert PairsOf(receipts, |grants|) == {};
      grants := grants + [row];
    }

    function Snapshot(): Tables
      reads this
    {
      Tables(credentials, grants, receipts)
    }

    /** Earlier receipts of the grant for the same call. */
    method Prior(g: GrantId, pair: Pair) returns (prior: seq<UseReceipt>)
      ensures prior != [] <==> pair in PairsOf(receipts, g)
      ensures forall r :: r in prior <==> r in receipts && r.grant == g && r.pair == pair
    {
      prior := [];
      for i := 0 to |receipts|
        invariant prior != [] <==> pair in PairsOf(receipts[..i], g)
        invariant forall r :: r in prior <==> r in receipts[..i] && r.grant == g && r.pair == pair
      {
        assert receipts[..i + 1] == receipts[..i] + [receipts[i]];
        PairsAppend(receipts[..i], receipts[i], g);
        if receipts[i].grant == g && receipts[i].pair == pair {
          prior := prior + [receipts[i]];
        }
      }
      assert receipts[..|receipts|] == receipts;
    }

    predicate Permits(req: Request, g: GrantId)
      reads this
    {
      g < |grants| && (grants[g].requiresApproval ==> req.approval.Some?)
    }

    /** Serve a call that some permitted candidate has already been used for. */
    method ServeAgain(req: Request) returns (seen: bool, released: Option<GrantId>)
      requires Exact(Snapshot())
      requires forall i :: 0 <= i < |req.candidates| ==> req.candidates[i] < |grants|
      modifies this`receipts
      ensures Exact(Snapshot())
      ensures seen <==> exists i :: 0 <= i < |req.candidates| && Permits(req, req.candidates[i])
                                    && req.pair in PairsOf(old(receipts), req.candidates[i])
      ensures released.None? ==> receipts == old(receipts)
      ensures released.Some? ==> seen && released.value in req.candidates && Permits(req, released.value)
                                 && req.opens(released.value) && req.pair in PairsOf(old(receipts), released.value)
      ensures seen ==> exists k: nat :: FirstUsed(old(Snapshot()), req, k)
                                        && ServedFrom(old(Snapshot()), Snapshot(), req, k, released)
    {
      ghost var before := Snapshot();
      for i := 0 to |req.candidates|
        invariant receipts == old(receipts)
        invariant forall j :: 0 <= j < i && Permits(req, req.candidates[j]) ==>
          req.pair !in PairsOf(receipts, req.candidates[j])
      {
        var g := req.candidates[i];
        if !Permits(req, g) {
          continue;
        }
        var prior := Prior(g, req.pair);
        if prior != [] {
          assert FirstUsed(before, req, i);
          PriorMeans(before, req, g, prior);
          var purposes := set r | r in prior :: r.purpose;
          if purposes != {req.purpose} || !req.opens(g) {
            return true, None;
          }
          var approvals := set r | r in prior :: r.approval;
          if req.approval !in approvals {
            var receipt := UseReceipt(g, req.pair, req.approval, req.purpose);
            RebindKeepsExact(Snapshot(), receipt);
            receipts := receipts + [receipt];
          }
          return true, Some(g);
        }
      }
      return false, None;
    }

    predicate HasRoomFor(g: GrantId)
      reads this
    {
      && g < |grants| && grants[g].credential < |credentials|
      && HasRoom(grants[g].uses, grants[g].maxUses)
      && HasRoom(credentials[grants[g].credential].uses, credentials[grants[g].credential].maxUses)
    }

    /** Count a new call on the first permitted candidate with room left. */
    method ChargeNew(req: Request) returns (released: Option<GrantId>)
      requires Exact(Snapshot())
      requires forall i :: 0 <= i < |req.candidates| ==> req.candidates[i] < |grants|
      requires forall i :: 0 <= i < |req.candidates| && Permits(req, req.candidates[i]) ==>
                 req.pair !in PairsOf(receipts, req.candidates[i])
      modifies this
      ensures Exact(Snapshot())
      ensures released.None? ==> Snapshot() == old(Snapshot())
      ensures (forall k: nat :: !FirstPaying(old(Snapshot()), req, k)) ==> released.None?
      ensures forall k: nat :: FirstPaying(old(Snapshot()), req, k) ==>
                ChargedTo(old(Snapshot()), Snapshot(), req, k, released)
      ensures released.Some? ==>
        && released.value in req.candidates && released.value < |old(grants)| && old(Permits(req, released.value))
        && req.opens(released.value)
        && old(grants[released.value].credential) < |old(credentials)|
        && Snapshot() == Charged(old(Snapshot()), released.value,
                                 UseReceipt(released.value, req.pair, req.approval, req.purpose))
    {
      ghost var before := Snapshot();
      for i := 0 to |req.candidates|
        invariant Snapshot() == before
        invariant forall j :: 0 <= j < i ==> !(Permitted(before, req, req.candidates[j]) && CanPay(before, req.candidates[j]))
      {
        var g := req.candidates[i];
        if Permits(req, g) && HasRoomFor(g) {
          assert FirstPaying(before, req, i);
          OnePaying(before, req, i);
          if !req.opens(g) {
            return None;
          }
          var c := grants[g].credential;
          var receipt := UseReceipt(g, req.pair, req.approval, req.purpose);
          ChargeKeepsExact(Snapshot(), g, receipt);
          grants := grants[g := grants[g].(uses := grants[g].uses + 1)];
          credentials := credentials[c := credentials[c].(uses := credentials[c].uses + 1)];
          receipts := receipts + [receipt];
          return Some(g);
        }
      }
      return None;
    }

    /** Release the secret of some candidate grant, or None. A call seen before is served from
        its receipt without counting again; a new one is counted on a grant with room left. */
    method Consume(req: Request) returns (released: Option<GrantId>)
      requires Exact(Snapshot())
      requires forall i :: 0 <= i < |req.candidates| ==> req.candidates[i] < |grants|
      modifies this
      ensures Exact(Snapshot())
      ensures released.None? ==> Snapshot() == old(Snapshot())
      ensures released.Some? ==>
        && released.value in req.candidates && req.opens(released.value) && old(Permits(req, released.value))
      ensures old(exists i :: 0 <= i < |req.candidates| && Permits(req, req.candidates[i])
                              && req.pair in PairsOf(receipts, req.candidates[i])) ==>
                credentials == old(credentials) && grants == old(grants)
      ensures released.Some? && old(req.pair !in PairsOf(receipts, released.value)) ==>
        && old(released.value < |grants| && grants[released.value].credential < |credentials|)
        && Snapshot() == Charged(old(Snapshot()), released.value,
                                 UseReceipt(released.value, req.pair, req.approval, req.purpose))
      ensures (exists k: nat :: FirstUsed(old(Snapshot()), req, k)) ==>
                exists k: nat :: FirstUsed(old(Snapshot()), req, k)
                                 && ServedFrom(old(Snapshot()), Snapshot(), req, k, released)
      ensures (forall k: nat :: !FirstUsed(old(Snapshot()), req, k)) ==>
                && ((forall k: nat :: !FirstPaying(old(Snapshot()), req, k)) ==> released.None?)
                && forall k: nat :: FirstPaying(old(Snapshot()), req, k) ==>
                     ChargedTo(old(Snapshot()), Snapshot(), req, k, released)
    {
      ghost var before := Snapshot();
      UsedMeansPair(before, req);
      var seen;
      seen, released := ServeAgain(req);
      if !seen {
        released := ChargeNew(req);
      }
    }
  }
}
