/** The guard's document ledger over any sequence of client messages. */
module GuardLedger {
  import opened Common
  import opened Text
  import opened Json
  import opened Positions
  import opened Guard
  import opened Sums

  lemma TotalWithout(docs: map<Text, Tracked>, uri: Text)
    requires uri in docs
    ensures TotalBytes(docs) == docs[uri].bytes + TotalBytes(docs - {uri})
  {
    assert Sizes(docs - {uri}) == Sizes(docs) - {uri};
    SumWithout(Sizes(docs), uri);
  }

  lemma TotalWith(docs: map<Text, Tracked>, uri: Text, doc: Tracked)
    ensures TotalBytes(docs[uri := doc])
         == TotalBytes(docs) + doc.bytes - if uri in docs then docs[uri].bytes else 0
  {
    assert Sizes(docs[uri := doc]) == Sizes(docs)[uri := doc.bytes];
    SumWith(Sizes(docs), uri, doc.bytes);
  }

  predicate DocumentOk(c: GuardConfig, uri: Text, doc: Tracked) {
    uri in c.documentUris && NUL !in doc.text && doc.bytes == Utf8Length(doc.text)
  }

  /** The ledger: exact, bounded, of allowed and NUL-free documents, open only while the session is. */
  ghost predicate GuardOk(c: GuardConfig, g: GuardState) {
    && g.documentBytes == TotalBytes(g.documents)
    && g.documentBytes <= c.maxDocumentBytes
    && (forall uri :: uri in g.documents ==> DocumentOk(c, uri, g.documents[uri]))
    && (g.documents != map[] ==> g.initializedSeen)
    && (g.initializedSeen ==> g.initializeSeen)
    && (g.shutdownSeen ==> g.initializedSeen)
    && g.messagesInWindow <= c.maxMessagesPerWindow
    && g.sessionBytes <= c.maxSessionBytes
  }

  /**
   What one answered message may do to the open documents: nothing, close one, or give
   exactly one document the text that is handed out for writing.
   */
  ghost predicate DocumentsStep(g: GuardState, g': GuardState) {
    if g'.update.None? then
      || g'.documents == g.documents
      || exists uri :: uri in g.documents && g'.documents == g.documents - {uri}
    else
      var u := g'.update.value;
      && u.uri in g'.documents
      && g'.documents == g.documents[u.uri := g'.documents[u.uri]]
      && g'.documents[u.uri].text == u.text
      && (u.uri in g.documents ==> g.documents[u.uri].version <= g'.documents[u.uri].version)
  }

  /** The flags never go back, and nothing changes after shutdown. */
  predicate LifecycleStep(g: GuardState, g': GuardState) {
    && (g.initializeSeen ==> g'.initializeSeen)
    && (g.initializedSeen ==> g'.initializedSeen)
    && (g.shutdownSeen ==> g'.shutdownSeen && g'.documents == g.documents && g'.update.None?)
  }

  ghost predicate Kept(c: GuardConfig, g: GuardState, g': GuardState, a: Answer) {
    && GuardOk(c, g')
    && DocumentsStep(g, g')
    && LifecycleStep(g, g')
    && (a != Accepted ==> g'.documents == g.documents && g'.documentBytes == g.documentBytes && g'.update.None?)
  }

  // ---- documents ------------------------------------------------------------------------

  lemma {:induction false} AppliedAllSafe(t: Text, changes: seq<Json>, max: nat)
    requires changes != [] && AppliedAll(t, changes, max).Some?
    ensures IsSafe(AppliedAll(t, changes, max).value, max)
    decreases |changes|
  {
    var first := Applied(t, changes[0], max).value;
    if |changes| > 1 {
      AppliedAllSafe(first, changes[1..], max);
    } else {
      assert AppliedAll(first, changes[1..], max) == Some(first);
    }
  }

  /** An edit of an allowed, sound document that fits keeps the ledger. */
  lemma EditKeeps(c: GuardConfig, g: GuardState, e: Edit)
    requires GuardOk(c, g) && g.update.None? && StageOf(g) == Active
    requires DocumentOk(c, e.uri, e.doc) && Fits(c, g.documents, e)
    requires e.uri in g.documents ==> g.documents[e.uri].version <= e.doc.version
    ensures Kept(c, g, Edited(g, e), Accepted)
  {
    hide TotalBytes;
  }

  lemma StayKeeps(c: GuardConfig, g: GuardState, a: Answer)
    requires GuardOk(c, g) && g.update.None?
    ensures Kept(c, g, g, a)
  {
  }

  lemma ChangeIsSafe(c: GuardConfig, docs: map<Text, Tracked>, params: Maybe)
    requires ChangesOne(c, docs, params)
    ensures NUL !in ChangeEdit(c, docs, params).doc.text
  {
    AppliedAllSafe(docs[Named(params)].text, Get(params.value, "contentChanges").value.elems, c.maxDocumentBytes);
  }

  lemma CloseKeeps(c: GuardConfig, g: GuardState, uri: Text)
    requires GuardOk(c, g) && g.update.None? && StageOf(g) == Active && uri in g.documents
    ensures Kept(c, g, WithoutDocument(g, uri), Accepted)
  {
    hide TotalBytes;
    TotalWithout(g.documents, uri);
  }

  // ---- messages -------------------------------------------------------------------------

  lemma OpenIsAllowed(c: GuardConfig, g: GuardState, uri: Text)
    requires GuardOk(c, g) && uri in g.documents
    ensures uri in c.documentUris
  {
    assert DocumentOk(c, uri, g.documents[uri]);
  }

  lemma EffectKeeps(c: GuardConfig, g: GuardState, kind: Kind, params: Maybe)
    requires GuardOk(c, g) && g.update.None? && MayCall(c, g, kind, params)
    requires kind in {DidOpen, DidChange, DidClose, DidSave}
    ensures Kept(c, g, Effect(c, g, kind, params), Accepted)
  {
    hide GuardOk, Kept, Fits, AppliedAll, Edited, WithoutDocument;
    match kind
    case DidOpen => EditKeeps(c, g, OpenEdit(params));
    case DidChange =>
      ChangeIsSafe(c, g.documents, params);
      OpenIsAllowed(c, g, Named(params));
      EditKeeps(c, g, ChangeEdit(c, g.documents, params));
    case DidClose => CloseKeeps(c, g, Named(params));
    case DidSave =>
      OpenIsAllowed(c, g, Named(params));
      if SavesText(params) {
        EditKeeps(c, g, SaveEdit(g.documents, params));
      } else {
        StayKeeps(c, g, Accepted);
      }
  }

  lemma MethodKeeps(c: GuardConfig, g: GuardState, kind: Kind, params: Maybe)
    requires GuardOk(c, g) && g.update.None?
    ensures var (g', a) := OnMethod(c, g, kind, params); Kept(c, g, g', a)
  {
    if kind in {DidOpen, DidChange, DidClose, DidSave} {
      hide GuardOk, Kept, Effect, MayCall;
      if MayCall(c, g, kind, params) {
        EffectKeeps(c, g, kind, params);
      } else {
        StayKeeps(c, g, POLICY);
      }
    } else {
      hide TotalBytes, InitializeOk, ConfigurationOk;
    }
  }

  lemma BodyKeeps(c: GuardConfig, g: GuardState, m: Message)
    requires GuardOk(c, g) && g.update.None?
    ensures var (g', a) := OnBody(c, g, m); Kept(c, g, g', a)
  {
    hide GuardOk, Kept, WithinSession, KindOf, AsAscii, OnMethod;
    if IsEnvelope(m) && WithinSession(c, m.body.value) && IsText(Get(m.body.value, "method")) {
      MethodKeeps(c, g, KindOf(AsAscii(Get(m.body.value, "method").value.text)), Get(m.body.value, "params"));
    } else {
      StayKeeps(c, g, OnBody(c, g, m).1);
    }
  }

  /** Every message, well formed or not, accepted or not, keeps the ledger. */
  lemma MessageKeeps(c: GuardConfig, g: GuardState, m: Message)
    requires GuardOk(c, g)
    ensures var (g', a) := OnMessage(c, g, m); Kept(c, g, g', a)
  {
    hide OnBody;
    var g1 := AtTime(c, g.(update := None), m.now);
    if BudgetAnswer(c, g1, m.bytes) == Accepted {
      BodyKeeps(c, Charged(g1, m.bytes), m);
    }
  }

  // ---- whole sessions -------------------------------------------------------------------

  /** The states a guard goes through: one per message, from the state it was created in. */
  ghost predicate IsSession(c: GuardConfig, gs: seq<GuardState>, ms: seq<Message>) {
    && |gs| == |ms| + 1
    && (exists now :: gs[0] == Fresh(now))
    && forall i :: 0 <= i < |ms| ==> gs[i + 1] == OnMessage(c, gs[i], ms[i]).0
  }

  /** The ledger is exact and bounded after any sequence of messages. */
  lemma {:induction false} LedgerAlways(c: GuardConfig, gs: seq<GuardState>, ms: seq<Message>, i: nat)
    requires IsSession(c, gs, ms) && i < |gs|
    ensures GuardOk(c, gs[i])
  {
    hide OnMessage, GuardOk;
    if i == 0 {
      FreshOk(c, gs[0]);
    } else {
      LedgerAlways(c, gs, ms, i - 1);
      MessageKeeps(c, gs[i - 1], ms[i - 1]);
      assert gs[i - 1 + 1] == OnMessage(c, gs[i - 1], ms[i - 1]).0;
    }
  }

  lemma FreshOk(c: GuardConfig, g: GuardState)
    requires exists now :: g == Fresh(now)
    ensures GuardOk(c, g)
  {
    assert Sizes(map[]) == map[];
  }

  /** A rejected message, even one that fails midway through its change list, leaves all documents unchanged. */
  lemma RejectionChangesNothing(c: GuardConfig, gs: seq<GuardState>, ms: seq<Message>, i: nat)
    requires IsSession(c, gs, ms) && i < |ms| && OnMessage(c, gs[i], ms[i]).1 != Accepted
    ensures gs[i + 1].documents == gs[i].documents && gs[i + 1].documentBytes == gs[i].documentBytes
  {
    hide OnMessage, GuardOk;
    LedgerAlways(c, gs, ms, i);
    MessageKeeps(c, gs[i], ms[i]);
  }

  /** After `shutdown` no message opens, changes or closes a document. */
  lemma {:induction false} FrozenAfterShutdown(c: GuardConfig, gs: seq<GuardState>, ms: seq<Message>, i: nat, j: nat)
    requires IsSession(c, gs, ms) && i <= j < |gs| && gs[i].shutdownSeen
    ensures gs[j].shutdownSeen && gs[j].documents == gs[i].documents
    ensures i < j ==> gs[j].update.None?
  {
    hide OnMessage, GuardOk;
    if i < j {
      FrozenAfterShutdown(c, gs, ms, i, j - 1);
      LedgerAlways(c, gs, ms, j - 1);
      MessageKeeps(c, gs[j - 1], ms[j - 1]);
      assert gs[j - 1 + 1] == OnMessage(c, gs[j - 1], ms[j - 1]).0;
    }
  }

  lemma SpellsIs(m: Message, name: string)
    requires Calls(m, name) && forall i :: 0 <= i < |name| ==> name[i] as int < 0x80
    ensures AsAscii(At(Body(m), "method").value.text) == name
  {
  }

  /** The message is an accepted `textDocument/didChange` of `uri`. */
  ghost predicate Changes(c: GuardConfig, g: GuardState, m: Message, uri: Text) {
    OnMessage(c, g, m).1 == Accepted && Calls(m, "textDocument/didChange") && Concerns(m, uri)
  }

  lemma ChangeRaisesVersion(c: GuardConfig, g: GuardState, m: Message, uri: Text)
    requires GuardOk(c, g) && Changes(c, g, m, uri)
    ensures var g' := OnMessage(c, g, m).0;
            && uri in g.documents && uri in g'.documents
            && g.documents[uri].version < g'.documents[uri].version
  {
    hide GuardOk, WithinSession, KindOf, AsAscii, Kept, AppliedAll, TotalBytes, Fits;
    var g1 := Charged(AtTime(c, g.(update := None), m.now), m.bytes);
    var params := Get(m.body.value, "params");
    SpellsIs(m, "textDocument/didChange");
    assert KindOf("textDocument/didChange") == DidChange by { ChangeKind(); }
    assert OnMessage(c, g, m) == OnMethod(c, g1, DidChange, params);
  }

  lemma ChangeKind()
    ensures KindOf("textDocument/didChange") == DidChange
  {
  }

  lemma ChargedOk(c: GuardConfig, g: GuardState, m: Message)
    requires GuardOk(c, g) && BudgetAnswer(c, AtTime(c, g.(update := None), m.now), m.bytes) == Accepted
    ensures GuardOk(c, Charged(AtTime(c, g.(update := None), m.now), m.bytes))
  {
  }

  lemma VersionStep(c: GuardConfig, g: GuardState, m: Message, uri: Text)
    requires GuardOk(c, g) && uri in g.documents && uri in OnMessage(c, g, m).0.documents
    ensures g.documents[uri].version <= OnMessage(c, g, m).0.documents[uri].version
    ensures Changes(c, g, m, uri) ==> g.documents[uri].version < OnMessage(c, g, m).0.documents[uri].version
  {
    hide OnMessage, GuardOk, Changes;
    MessageKeeps(c, g, m);
    if Changes(c, g, m, uri) {
      ChangeRaisesVersion(c, g, m, uri);
    }
  }

  lemma {:induction false} VersionsNeverFall(c: GuardConfig, gs: seq<GuardState>, ms: seq<Message>,
                                             i: nat, j: nat, uri: Text)
    requires IsSession(c, gs, ms) && i <= j < |gs|
    requires forall k :: i <= k <= j ==> uri in gs[k].documents
    ensures gs[i].documents[uri].version <= gs[j].documents[uri].version
  {
    hide OnMessage, GuardOk, Changes;
    if i < j {
      VersionsNeverFall(c, gs, ms, i, j - 1, uri);
      LedgerAlways(c, gs, ms, j - 1);
      assert gs[j - 1 + 1] == OnMessage(c, gs[j - 1], ms[j - 1]).0;
      VersionStep(c, gs[j - 1], ms[j - 1], uri);
    }
  }

  /** Across an accepted change the version of a document that stays open strictly increases. */
  lemma VersionsIncrease(c: GuardConfig, gs: seq<GuardState>, ms: seq<Message>, i: nat, k: nat, j: nat, uri: Text)
    requires IsSession(c, gs, ms) && i <= k < j < |gs|
    requires forall l :: i <= l <= j ==> uri in gs[l].documents
    requires Changes(c, gs[k], ms[k], uri)
    ensures gs[i].documents[uri].version < gs[j].documents[uri].version
  {
    hide OnMessage, GuardOk, Changes;
    LedgerAlways(c, gs, ms, k);
    VersionsNeverFall(c, gs, ms, i, k, uri);
    assert gs[k + 1] == OnMessage(c, gs[k], ms[k]).0;
    VersionStep(c, gs[k], ms[k], uri);
    VersionsNeverFall(c, gs, ms, k + 1, j, uri);
  }

  /** Closing a document just opened takes the ledger back to where it was. */
  lemma CloseUndoesOpen(c: GuardConfig, g: GuardState, params: Maybe)
    requires GuardOk(c, g) && CanOpen(c, g.documents, params)
    ensures var after := Edited(g, OpenEdit(params));
            && CanClose(after.documents, params)
            && var closed := WithoutDocument(after, Named(params));
            closed.documents == g.documents && closed.documentBytes == g.documentBytes
  {
    hide TotalBytes;
    assert g.documents[Named(params) := OpenEdit(params).doc] - {Named(params)} == g.documents;
  }
}
