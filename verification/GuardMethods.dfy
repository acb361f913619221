/** What each method of the language server protocol does to a session, told by the text of the message. */
module GuardMethods {
  import opened Common
  import opened Text
  import opened Json
  import opened Positions
  import opened Guard
  import opened GuardLedger
  import opened Sums
  import opened JsonRpcGuard

  /** Everything before the method matters: the budget, the envelope and the URIs. */
  ghost predicate Heard(c: GuardConfig, g: GuardState, m: Message) {
    && BudgetAnswer(c, AtTime(c, g.(update := None), m.now), m.bytes) == Accepted
    && IsEnvelope(m) && WithinSession(c, m.body.value)
  }

  predicate IsActive(g: GuardState) {
    g.initializedSeen && !g.shutdownSeen
  }

  predicate SameStage(g: GuardState, g': GuardState) {
    && g'.initializeSeen == g.initializeSeen && g'.initializedSeen == g.initializedSeen
    && g'.shutdownSeen == g.shutdownSeen
  }

  predicate SameDocuments(g: GuardState, g': GuardState) {
    g'.documents == g.documents && g'.documentBytes == g.documentBytes && g'.update.None?
  }

  // ---- from the text to the kind ------------------------------------------------------------------

  /** A message that is heard is answered by its method. */
  lemma Answers(c: GuardConfig, g: GuardState, m: Message, name: string)
    requires IsText(At(Body(m), "method")) && AsAscii(At(Body(m), "method").value.text) == name
    ensures var (g', a) := OnMessage(c, g, m);
            if Heard(c, g, m)
            then (g', a) == OnMethod(c, Charged(AtTime(c, g.(update := None), m.now), m.bytes), KindOf(name),
                                     At(Body(m), "params"))
            else a != Accepted && g' in {AtTime(c, g.(update := None), m.now),
                                         Charged(AtTime(c, g.(update := None), m.now), m.bytes)}
  {
    hide KindOf, OnMethod, WithinSession, AsAscii;
  }

  /** The state in which a heard message meets its method differs from `g` in the budget only. */
  function Met(c: GuardConfig, g: GuardState, m: Message): GuardState {
    Charged(AtTime(c, g.(update := None), m.now), m.bytes)
  }

  lemma MetIsSame(c: GuardConfig, g: GuardState, m: Message)
    ensures var g1 := Met(c, g, m);
            && SameStage(g, g1) && g1.documents == g.documents && g1.documentBytes == g.documentBytes
            && g1.update.None?
  {
  }

  // ---- documents ---------------------------------------------------------------------------------

  /** The message closes the one document it names, and gives its bytes back. */
  lemma DidCloseMeans(c: GuardConfig, g: GuardState, m: Message)
    requires GuardOk(c, g) && Calls(m, "textDocument/didClose")
    ensures var (g', a) := OnMessage(c, g, m);
            && (a == Accepted <==>
                  Heard(c, g, m) && IsActive(g) && exists uri :: Concerns(m, uri) && uri in g.documents)
            && (forall uri :: a == Accepted && Concerns(m, uri) ==>
                  && uri in g.documents && g'.documents == g.documents - {uri}
                  && g'.documentBytes == g.documentBytes - g.documents[uri].bytes
                  && g'.update.None? && SameStage(g, g'))
  {
    hide GuardOk, KindOf, TotalBytes, OnMessage, Heard, AsAscii;
    SpellsIs(m, "textDocument/didClose");
    Answers(c, g, m, "textDocument/didClose");
    NotificationKinds();
    MetIsSame(c, g, m);
    BytesAreTotal(c, g);
    var params := At(Body(m), "params");
    if NamesDocument(params) {
      assert Concerns(m, Named(params));
      if Named(params) in g.documents {
        TotalWithout(g.documents, Named(params));
      }
    }
  }

  lemma BytesAreTotal(c: GuardConfig, g: GuardState)
    requires GuardOk(c, g)
    ensures g.documentBytes == TotalBytes(g.documents)
  {
  }

  /** The message opens a document with this text and version. */
  predicate Opens(m: Message, uri: Text, text: Text, version: nat) {
    && Concerns(m, uri) && At(Document(m), "text") == Defined(Str(text))
    && At(Document(m), "version") == Defined(Num(version as real)) && version <= 9007199254740991
  }

  predicate MayOpen(c: GuardConfig, g: GuardState, uri: Text, text: Text) {
    && uri in c.documentUris && uri !in g.documents && NUL !in text
    && g.documentBytes + Utf8Length(text) <= c.maxDocumentBytes
  }

  lemma VersionIs(m: Maybe, version: nat)
    requires version <= 9007199254740991
    ensures m == Defined(Num(version as real)) <==> IsIndex(m) && Index(m) == version
  {
  }

  /** The message opens a document of the session that is not open, and nothing else. */
  lemma DidOpenMeans(c: GuardConfig, g: GuardState, m: Message)
    requires GuardOk(c, g) && Calls(m, "textDocument/didOpen")
    ensures var (g', a) := OnMessage(c, g, m);
            && (a == Accepted <==>
                  Heard(c, g, m) && IsActive(g)
                  && exists uri, text, version :: Opens(m, uri, text, version) && MayOpen(c, g, uri, text))
            && (forall uri, text, version :: a == Accepted && Opens(m, uri, text, version) ==>
                  && uri !in g.documents
                  && g'.documents == g.documents[uri := Tracked(text, version, Utf8Length(text))]
                  && g'.documentBytes == g.documentBytes + Utf8Length(text)
                  && g'.update == Some(Update(uri, text, false)) && SameStage(g, g'))
  {
    hide GuardOk, KindOf, TotalBytes, OnMessage, Heard, AsAscii, Utf8Length;
    SpellsIs(m, "textDocument/didOpen");
    Answers(c, g, m, "textDocument/didOpen");
    NotificationKinds();
    MetIsSame(c, g, m);
    BytesAreTotal(c, g);
    var params := At(Body(m), "params");
    if NamesDocument(params) && IsText(Property(params, "text")) && IsIndex(Property(params, "version")) {
      var e := OpenEdit(params);
      assert Opens(m, e.uri, e.doc.text, e.doc.version);
      TotalWith(g.documents, e.uri, e.doc);
      forall uri, text, version | Opens(m, uri, text, version)
        ensures uri == e.uri && text == e.doc.text && version == e.doc.version
      {
        VersionIs(Property(params, "version"), version);
      }
    } else {
      forall uri, text, version ensures !Opens(m, uri, text, version) {
        if version <= 9007199254740991 {
          VersionIs(At(Document(m), "version"), version);
        }
      }
    }
  }

  /** The message carries these changes and this version for a document. */
  predicate Edits(m: Message, uri: Text, version: nat, changes: seq<Json>) {
    && Concerns(m, uri) && At(Document(m), "version") == Defined(Num(version as real)) && version <= 9007199254740991
    && At(At(Body(m), "params"), "contentChanges") == Defined(Arr(changes))
  }

  /** The changes, applied in order to the tracked text, give `text`. */
  predicate EditsTo(c: GuardConfig, g: GuardState, uri: Text, version: nat, changes: seq<Json>, text: Text) {
    && uri in g.documents && g.documents[uri].version < version && 1 <= |changes| <= 128
    && AppliedAll(g.documents[uri].text, changes, c.maxDocumentBytes) == Some(text)
  }

  predicate FitsInPlace(c: GuardConfig, g: GuardState, uri: Text, text: Text)
    requires uri in g.documents
  {
    g.documentBytes - g.documents[uri].bytes + Utf8Length(text) <= c.maxDocumentBytes
  }

  /** An open document has this text and version from now on, and it is handed out for writing. */
  predicate Retracked(g: GuardState, g': GuardState, uri: Text, text: Text, version: nat)
    requires uri in g.documents
  {
    && g'.documents == g.documents[uri := Tracked(text, version, Utf8Length(text))]
    && g'.documentBytes == g.documentBytes - g.documents[uri].bytes + Utf8Length(text)
    && g'.update == Some(Update(uri, text, true)) && SameStage(g, g')
  }

  /** The message gives an open document a newer version and the text its changes lead to. */
  lemma DidChangeMeans(c: GuardConfig, g: GuardState, m: Message)
    requires GuardOk(c, g) && Calls(m, "textDocument/didChange")
    ensures var (g', a) := OnMessage(c, g, m);
            && (a == Accepted <==>
                  Heard(c, g, m) && IsActive(g)
                  && exists uri, version, changes, text ::
                       Edits(m, uri, version, changes) && EditsTo(c, g, uri, version, changes, text)
                       && FitsInPlace(c, g, uri, text))
            && (forall uri, version, changes :: a == Accepted && Edits(m, uri, version, changes) ==>
                  exists text :: EditsTo(c, g, uri, version, changes, text) && Retracked(g, g', uri, text, version))
  {
    hide GuardOk, KindOf, TotalBytes, OnMessage, Heard, AsAscii, Utf8Length, AppliedAll;
    SpellsIs(m, "textDocument/didChange");
    Answers(c, g, m, "textDocument/didChange");
    NotificationKinds();
    MetIsSame(c, g, m);
    BytesAreTotal(c, g);
    var params := At(Body(m), "params");
    if NamesDocument(params) && IsIndex(Property(params, "version")) {
      forall uri, version, changes | Edits(m, uri, version, changes)
        ensures uri == Named(params) && version == Index(Property(params, "version"))
        ensures Get(params.value, "contentChanges") == Defined(Arr(changes))
      {
        VersionIs(Property(params, "version"), version);
      }
      if ChangesOne(c, g.documents, params) {
        var e := ChangeEdit(c, g.documents, params);
        var changes := Get(params.value, "contentChanges").value.elems;
        TotalWith(g.documents, e.uri, e.doc);
        assert Edits(m, e.uri, e.doc.version, changes);
        assert EditsTo(c, g, e.uri, e.doc.version, changes, e.doc.text);
      }
    } else {
      forall uri, version, changes ensures !Edits(m, uri, version, changes) {
        if version <= 9007199254740991 {
          VersionIs(At(Document(m), "version"), version);
        }
      }
    }
  }

  /** A save that carries a text tracks it under the same version; one that carries none changes nothing. */
  lemma DidSaveMeans(c: GuardConfig, g: GuardState, m: Message)
    requires GuardOk(c, g) && Calls(m, "textDocument/didSave")
    ensures var (g', a) := OnMessage(c, g, m);
            var saved := At(At(Body(m), "params"), "text");
            && (a == Accepted <==>
                  Heard(c, g, m) && IsActive(g)
                  && exists uri :: Concerns(m, uri) && uri in g.documents
                       && (saved.Defined? ==>
                             saved.value.Str? && NUL !in saved.value.text && FitsInPlace(c, g, uri, saved.value.text)))
            && (a == Accepted && saved.Undefined? ==> SameDocuments(g, g') && SameStage(g, g'))
            && (forall uri :: a == Accepted && saved.Defined? && Concerns(m, uri) ==>
                  && uri in g.documents && saved.value.Str?
                  && Retracked(g, g', uri, saved.value.text, g.documents[uri].version))
  {
    hide GuardOk, KindOf, TotalBytes, OnMessage, Heard, AsAscii, Utf8Length;
    SpellsIs(m, "textDocument/didSave");
    Answers(c, g, m, "textDocument/didSave");
    NotificationKinds();
    MetIsSame(c, g, m);
    BytesAreTotal(c, g);
    var params := At(Body(m), "params");
    if NamesDocument(params) {
      assert Concerns(m, Named(params));
      if Named(params) in g.documents && IsText(Get(params.value, "text")) {
        var e := SaveEdit(g.documents, params);
        TotalWith(g.documents, e.uri, e.doc);
      }
    }
  }

  // ---- the life of a session ---------------------------------------------------------------------

  /** The first message to be accepted at all, apart from notices that are ignored, is `initialize`. */
  lemma InitializeMeans(c: GuardConfig, g: GuardState, m: Message)
    requires GuardOk(c, g) && Calls(m, "initialize")
    ensures var (g', a) := OnMessage(c, g, m);
            && (a == Accepted <==> Heard(c, g, m) && !g.initializeSeen && InitializeOk(c, At(Body(m), "params")))
            && (a == Accepted ==>
                  SameDocuments(g, g') && g'.initializeSeen && !g'.initializedSeen && !g'.shutdownSeen)
  {
    hide KindOf, TotalBytes, OnMessage, Heard, AsAscii, InitializeOk;
    SpellsIs(m, "initialize");
    Answers(c, g, m, "initialize");
    LifecycleKinds();
    MetIsSame(c, g, m);
  }

  lemma InitializedMeans(c: GuardConfig, g: GuardState, m: Message)
    requires GuardOk(c, g) && Calls(m, "initialized")
    ensures var (g', a) := OnMessage(c, g, m);
            && (a == Accepted <==> Heard(c, g, m) && g.initializeSeen && !g.initializedSeen)
            && (a == Accepted ==> SameDocuments(g, g') && IsActive(g') && g'.initializeSeen)
  {
    hide KindOf, TotalBytes, OnMessage, Heard, AsAscii;
    SpellsIs(m, "initialized");
    Answers(c, g, m, "initialized");
    LifecycleKinds();
    MetIsSame(c, g, m);
  }

  lemma ShutdownMeans(c: GuardConfig, g: GuardState, m: Message)
    requires GuardOk(c, g) && Calls(m, "shutdown")
    ensures var (g', a) := OnMessage(c, g, m);
            && (a == Accepted <==> Heard(c, g, m) && IsActive(g))
            && (a == Accepted ==> SameDocuments(g, g') && g'.shutdownSeen && g'.initializedSeen)
  {
    hide KindOf, TotalBytes, OnMessage, Heard, AsAscii;
    SpellsIs(m, "shutdown");
    Answers(c, g, m, "shutdown");
    LifecycleKinds();
    MetIsSame(c, g, m);
  }

  lemma ExitMeans(c: GuardConfig, g: GuardState, m: Message)
    requires GuardOk(c, g) && Calls(m, "exit")
    ensures var (g', a) := OnMessage(c, g, m);
            && (a == Accepted <==> Heard(c, g, m) && g.shutdownSeen)
            && (a == Accepted ==> SameDocuments(g, g') && SameStage(g, g'))
  {
    hide KindOf, TotalBytes, OnMessage, Heard, AsAscii;
    SpellsIs(m, "exit");
    Answers(c, g, m, "exit");
    LifecycleKinds();
    MetIsSame(c, g, m);
  }

  // ---- everything else -----------------------------------------------------------------------------

  /** A request is forwarded only in an active session, about a document of the session, and changes nothing. */
  lemma RequestMeans(c: GuardConfig, g: GuardState, m: Message, request: string)
    requires GuardOk(c, g) && request in DOCUMENT_REQUESTS
    requires IsText(At(Body(m), "method")) && AsAscii(At(Body(m), "method").value.text) == "textDocument/" + request
    ensures var (g', a) := OnMessage(c, g, m);
            && (a == Accepted <==>
                  Heard(c, g, m) && IsActive(g) && exists uri :: Concerns(m, uri) && uri in c.documentUris)
            && (a == Accepted ==> SameDocuments(g, g') && SameStage(g, g'))
  {
    hide KindOf, TotalBytes, OnMessage, Heard, AsAscii, DOCUMENT_REQUESTS;
    Answers(c, g, m, "textDocument/" + request);
    RequestKind(request);
    MetIsSame(c, g, m);
    var params := At(Body(m), "params");
    if NamesDocument(params) {
      assert Concerns(m, Named(params));
    }
  }

  /** The requests about no document in particular. */
  lemma OtherRequestMeans(c: GuardConfig, g: GuardState, m: Message, request: string)
    requires GuardOk(c, g) && request in OTHER_REQUESTS
    requires IsText(At(Body(m), "method")) && AsAscii(At(Body(m), "method").value.text) == request
    ensures var (g', a) := OnMessage(c, g, m);
            && (a == Accepted <==> Heard(c, g, m) && IsActive(g))
            && (a == Accepted ==> SameDocuments(g, g') && SameStage(g, g'))
  {
    hide KindOf, TotalBytes, OnMessage, Heard, AsAscii, OTHER_REQUESTS;
    Answers(c, g, m, request);
    OtherKind(request);
    MetIsSame(c, g, m);
  }

  lemma DidChangeConfigurationMeans(c: GuardConfig, g: GuardState, m: Message)
    requires GuardOk(c, g) && Calls(m, "workspace/didChangeConfiguration")
    ensures var (g', a) := OnMessage(c, g, m);
            && (a == Accepted <==> Heard(c, g, m) && IsActive(g) && ConfigurationOk(At(Body(m), "params")))
            && (a == Accepted ==> SameDocuments(g, g') && SameStage(g, g'))
  {
    hide KindOf, TotalBytes, OnMessage, Heard, AsAscii, ConfigurationOk;
    SpellsIs(m, "workspace/didChangeConfiguration");
    Answers(c, g, m, "workspace/didChangeConfiguration");
    NotificationKinds();
    MetIsSame(c, g, m);
  }

  /** The two notices that are let through at any time. */
  lemma NoticeMeans(c: GuardConfig, g: GuardState, m: Message)
    requires GuardOk(c, g) && (Calls(m, "$/cancelRequest") || Calls(m, "$/setTrace"))
    ensures var (g', a) := OnMessage(c, g, m);
            && (a == Accepted <==> Heard(c, g, m))
            && (a == Accepted ==> SameDocuments(g, g') && SameStage(g, g'))
  {
    hide TotalBytes, OnMessage, Heard, AsAscii, KindOf;
    LifecycleKinds();
    var name := if Calls(m, "$/cancelRequest") then "$/cancelRequest" else "$/setTrace";
    SpellsIs(m, name);
    Answers(c, g, m, name);
    MetIsSame(c, g, m);
  }

  /** A message without a method is let through exactly when it is a response, and changes nothing. */
  lemma ResponseMeans(c: GuardConfig, g: GuardState, m: Message)
    requires GuardOk(c, g) && m.body.Some? && At(Body(m), "method").Undefined?
    ensures var (g', a) := OnMessage(c, g, m);
            && (a == Accepted <==> Heard(c, g, m) && IsResponse(m.body.value))
            && (a == Accepted ==> SameDocuments(g, g') && SameStage(g, g'))
  {
    hide WithinSession, IsResponse, TotalBytes;
  }

  /** A message whose method is none of the client methods is refused, and so is one whose method is no text. */
  lemma UnlistedMethodIsRefused(c: GuardConfig, g: GuardState, m: Message)
    requires At(Body(m), "method").Defined? && forall name :: name in CLIENT_METHODS ==> !Calls(m, name)
    ensures OnMessage(c, g, m).1 != Accepted
  {
    hide KindOf, WithinSession, CLIENT_METHODS;
    if IsText(At(Body(m), "method")) {
      var t := At(Body(m), "method").value.text;
      assert AsAscii(t) != "" ==> Spells(t, AsAscii(t));
      assert "" !in CLIENT_METHODS by { NoEmptyMethod(); }
      NotAMethod(AsAscii(t));
    }
  }

  lemma NoEmptyMethod()
    ensures "" !in CLIENT_METHODS
  {
    hide DOCUMENT_REQUESTS;
  }

  /**
   The close code tells the refusals apart: 1013 for a window that is used up, 1009 for a session
   over its bytes, 1008 for everything refused within the budget.
   */
  lemma RefusalCodes(c: GuardConfig, g: GuardState, m: Message)
    ensures var a := OnMessage(c, g, m).1;
            var running := m.now - g.windowStartedAt < c.rateWindowMs;
            var full := (if running then g.messagesInWindow else 0) >= c.maxMessagesPerWindow;
            var spent := g.sessionBytes + m.bytes > c.maxSessionBytes;
            && (a == Rejected(1013) <==> full)
            && (a == Rejected(1009) <==> !full && spent)
            && (a == Rejected(1008) <==> !full && !spent && a != Accepted)
  {
    hide WithinSession, KindOf, AsAscii, MayCall, Effect, IsResponse;
  }
}
