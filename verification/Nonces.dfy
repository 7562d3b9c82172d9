/** A provider's receipts are numbered 1, 2, 3, ... with one number per request. */
module Nonces {
  import opened Tables
  import opened Ledger

  ghost predicate Issued(nonces: map<RequestId, Nonce>, provider: Address, k: nat) {
    exists r :: r in nonces && nonces[r] == Nonce(provider, k)
  }

  ghost predicate NoncesOK(nonces: map<RequestId, Nonce>) {
    && (forall r <- nonces :: nonces[r].number >= 1)
    && (forall r, r' :: r in nonces && r' in nonces && nonces[r] == nonces[r'] ==> r == r')
    && (forall r, k: nat :: r in nonces && 1 <= k <= nonces[r].number ==> Issued(nonces, nonces[r].provider, k))
  }

  /** The numbers issued to a provider are exactly those from 1 to the highest. */
  lemma Contiguous(nonces: map<RequestId, Nonce>, provider: Address, k: nat)
    requires NoncesOK(nonces)
    ensures Issued(nonces, provider, k) <==> 1 <= k <= Highest(nonces.Keys, nonces, provider)
  {
    var n := Highest(nonces.Keys, nonces, provider);
    if 1 <= k <= n {
      var r :| r in nonces && nonces[r].provider == provider && nonces[r].number == n;
    }
  }

  lemma AtDraft(db: Db, r: RequestId, domain: Domain)
    requires NoncesOK(db.nonces) && PrepareReceipt(db, r, domain).Commit?
    ensures NoncesOK(PrepareReceipt(db, r, domain).db.nonces)
  {
    var nonces := db.nonces;
    var provider := db.machines[db.proposals[r].machine].wallet;
    var nonces' := PrepareReceipt(db, r, domain).db.nonces;
    if r in nonces {
      assert nonces' == nonces;
    } else {
      Extended(nonces, provider, r);
    }
  }

  lemma Extended(nonces: map<RequestId, Nonce>, provider: Address, r: RequestId)
    requires NoncesOK(nonces) && r !in nonces
    ensures NoncesOK(nonces[r := Nonce(provider, Highest(nonces.Keys, nonces, provider) + 1)])
  {
    var top := Highest(nonces.Keys, nonces, provider);
    var nonces' := nonces[r := Nonce(provider, top + 1)];
    forall q, k: nat | q in nonces' && 1 <= k <= nonces'[q].number ensures Issued(nonces', nonces'[q].provider, k) {
      if nonces'[q] == Nonce(provider, k) {
      } else if q != r || k <= top {
        Contiguous(nonces, nonces'[q].provider, k);
        var past :| past in nonces && nonces[past] == Nonce(nonces'[q].provider, k);
        assert nonces'[past] == nonces[past];
      }
    }
  }
}
