/** Exactly which attestations a markActive call gets past its check and stores, and that a call with a good one activates. */
module ReadinessLaws {
  import opened Wrappers
  import opened Cutover
  import opened Readiness
  import CutoverLaws

  /** The attestation is independent and about this FENCED receipt in every field. */
  predicate About(a: Attestation, r: Receipt) {
    && r.phase == Fenced && a.independent && a.fenced == ReceiptHash(r)
    && a == Attestation(r.intent.commandId, r.intent.targetEpoch, r.intent.targetSourceEpoch, r.intent.manifest,
                        r.intent.finalSequence, r.intent.state, ReceiptHash(r), true)
  }

  /** The check passes exactly the attestations about the head, and changes nothing else. */
  lemma ChecksExactly(w: World, a: Attestation)
    ensures var after := NextReady(w, Check(a));
            && after.checked == (if w.control.head.Some? && About(a, w.control.head.value) then w.checked + {a} else w.checked)
            && after == w.(checked := after.checked)
  {
  }

  /** An attestation is stored exactly when it passed the check and no other is on file for its command. */
  lemma StoresExactly(w: World, a: Attestation)
    ensures var after := NextReady(w, Store(a));
            var free := a.commandId !in w.stored || w.stored[a.commandId] == a;
            && after.ready == (if a in w.checked && free then w.ready + {a} else w.ready)
            && after.stored == (if a in w.checked && free then w.stored[a.commandId := a] else w.stored)
            && after == w.(ready := after.ready, stored := after.stored)
  {
  }

  /** A call whose attestation is about the FENCED head, with no other on file for the command, makes it ACTIVE. */
  lemma ReadyCallsActivate(w: World, a: Attestation)
    requires ControlOk(w.control) && w.control.head.Some? && About(a, w.control.head.value)
    requires a.commandId !in w.stored || w.stored[a.commandId] == a
    ensures var after := NextReady(NextReady(NextReady(w, Check(a)), Store(a)), Finish(a));
            && after.stored == w.stored[a.commandId := a]
            && after.control.head.Some? && after.control.head.value.phase == Activated
            && after.control.head.value.intent == w.control.head.value.intent && after.control.mark == w.control.mark
  {
    ChecksExactly(w, a);
    StoresExactly(NextReady(w, Check(a)), a);
    CutoverLaws.ActivatesExactly(w.control, a.commandId);
    hide ControlOk, MarkActive;
  }

  /** A repeated store, of a call that retries, changes nothing. */
  lemma StoreAgain(w: World, a: Attestation)
    requires a in w.ready && a.commandId in w.stored && w.stored[a.commandId] == a
    ensures NextReady(w, Store(a)) == w
  {
    assert w.stored[a.commandId := a] == w.stored;
    assert w.ready + {a} == w.ready;
  }
}
