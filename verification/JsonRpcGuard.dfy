/** `LspJsonRpcGuard` as the object it is: fields updated in place by each message. */
module JsonRpcGuard {
  import opened Common
  import opened Text
  import opened Json
  import opened Positions
  import opened Guard
  import opened GuardLedger

  // ---- method names -------------------------------------------------------------------------

  predicate StartsWith(s: string, prefix: string) {
    |s| >= |prefix| && s[..|prefix|] == prefix
  }

  /** Of the client methods, the filter that makes up `DOCUMENT_METHODS`. */
  predicate IsDocumentMethod(name: string) {
    StartsWith(name, "textDocument/") && !StartsWith(name, "textDocument/did")
  }

  lemma Prefixed(r: string)
    ensures var name := "textDocument/" + r;
            && |name| >= 13 && name[..13] == "textDocument/" && name[13..] == r
            && (StartsWith(name, "textDocument/did") <==> StartsWith(r, "did"))
  {
    var name := "textDocument/" + r;
    if |r| >= 3 {
      assert name[..16] == "textDocument/" + r[..3];
      assert "textDocument/did" == "textDocument/" + "did";
      assert name[..16][13..] == r[..3];
      assert "textDocument/did"[13..] == "did";
    }
  }

  lemma NotAMethod(name: string)
    requires name !in CLIENT_METHODS
    ensures KindOf(name) == Forbidden
  {
    hide DOCUMENT_REQUESTS, OTHER_REQUESTS;
    if |name| >= 13 && name[..13] == "textDocument/" {
      assert name == "textDocument/" + name[13..];
    }
  }

  lemma RequestsAreNoNotifications(r: string)
    requires r in DOCUMENT_REQUESTS
    ensures !StartsWith(r, "did")
  {
    if |r| >= 3 {
      assert r[0] != 'd' || r[1] != 'i' || r[2] != 'd';
      assert r[..3][0] == r[0] && r[..3][1] == r[1] && r[..3][2] == r[2];
    }
  }

  lemma RequestKind(r: string)
    requires r in DOCUMENT_REQUESTS
    ensures KindOf("textDocument/" + r) == DocumentRequest && IsDocumentMethod("textDocument/" + r)
  {
    hide DOCUMENT_REQUESTS;
    var name := "textDocument/" + r;
    RequestsAreNoNotifications(r);
    Prefixed(r);
    assert name[0] == 't';
    assert "textDocument/didOpen"[..16] == "textDocument/did" == "textDocument/didChange"[..16];
    assert "textDocument/didClose"[..16] == "textDocument/did" == "textDocument/didSave"[..16];
  }

  lemma OtherKind(name: string)
    requires name in OTHER_REQUESTS
    ensures KindOf(name) == OtherRequest && !IsDocumentMethod(name)
  {
    assert name[0] != 't';
    assert |name| >= 13 ==> name[..13][0] == name[0];
  }

  lemma LifecycleKinds()
    ensures KindOf("$/cancelRequest") == KindOf("$/setTrace") == Ignored
    ensures KindOf("initialize") == Initialize && KindOf("initialized") == Initialized
    ensures KindOf("shutdown") == Shutdown && KindOf("exit") == Exit
  {
  }

  lemma NotificationKinds()
    ensures KindOf("textDocument/didOpen") == DidOpen && KindOf("textDocument/didChange") == DidChange
    ensures KindOf("textDocument/didClose") == DidClose && KindOf("textDocument/didSave") == DidSave
    ensures KindOf("workspace/didChangeConfiguration") == DidChangeConfiguration
  {
  }

  /** What is left after the methods allowed only before or after the active stage. */
  lemma ActiveMethod(name: string)
    requires name in CLIENT_METHODS
    requires name != "$/cancelRequest" && name != "$/setTrace"
    requires name != "initialize" && name != "initialized" && name != "shutdown" && name != "exit"
    ensures StageFor(KindOf(name)) == Some(Active) && KindOf(name) != Shutdown
    ensures name in {"textDocument/didOpen", "textDocument/didChange", "textDocument/didClose",
                     "textDocument/didSave", "workspace/didChangeConfiguration"}
            || KindOf(name) == if IsDocumentMethod(name) then DocumentRequest else OtherRequest
  {
    hide KindOf, DOCUMENT_REQUESTS, OTHER_REQUESTS, IsDocumentMethod;
    NotificationKinds();
    if r :| r in DOCUMENT_REQUESTS && name == "textDocument/" + r {
      RequestKind(r);
    } else if name in OTHER_REQUESTS {
      OtherKind(name);
    }
  }

  class LspJsonRpcGuard {
    const config: GuardConfig
    var documents: map<Text, Tracked>
    var documentBytes: int
    var initializeSeen: bool
    var initializedSeen: bool
    var shutdownSeen: bool
    var pendingUpdate: Option<Update>
    var windowStartedAt: int
    var messagesInWindow: nat
    var sessionBytes: nat

    ghost function View(): GuardState
      reads this
    {
      GuardState(documents, documentBytes, initializeSeen, initializedSeen, shutdownSeen,
                 pendingUpdate, windowStartedAt, messagesInWindow, sessionBytes)
    }

    ghost predicate Valid()
      reads this
    {
      GuardOk(config, View())
    }

    constructor (config: GuardConfig, now: int)
      ensures this.config == config && View() == Fresh(now) && Valid()
    {
      this.config := config;
      documents, documentBytes := map[], 0;
      initializeSeen, initializedSeen, shutdownSeen := false, false, false;
      pendingUpdate := None;
      windowStartedAt, messagesInWindow, sessionBytes := now, 0, 0;
    }

    /** The ledger survives every message, and the answer is the one `OnMessage` gives. */
    method ValidateClientMessage(m: Message) returns (answer: Answer)
      requires Valid()
      modifies this
      ensures Valid()
      ensures (View(), answer) == OnMessage(config, old(View()), m)
    {
      hide GuardOk, MayCall, Effect, KindOf, AsAscii, IsResponse, InitializeOk;
      MessageKeeps(config, View(), m);
      assert BudgetAnswer(config, AtTime(config, View().(update := None), m.now), m.bytes) == Accepted ==>
          GuardOk(config, Charged(AtTime(config, View().(update := None), m.now), m.bytes)) by {
        if BudgetAnswer(config, AtTime(config, View().(update := None), m.now), m.bytes) == Accepted {
          ChargedOk(config, View(), m);
        }
      }
      pendingUpdate := None;
      answer := ConsumeClientBudget(m.bytes, m.now);
      if answer != Accepted {
        return;
      }
      if m.body.None? || !m.body.value.Obj? {
        return POLICY;
      }
      var version := Get(m.body.value, "jsonrpc");
      if version.Undefined? || !version.value.Str? || AsAscii(version.value.text) != "2.0" {
        return POLICY;
      }
      var body := m.body.value;
      var stray := HasUnexpectedUri(body, config.documentUris, config.workspaceUri);
      if stray {
        return POLICY;
      }
      var name := Get(body, "method");
      if name.Undefined? {
        var ok := IsJsonRpcResponse(body);
        return if ok then Accepted else POLICY;
      }
      if !name.value.Str? {
        return POLICY;
      }
      answer := ValidateClientMethod(AsAscii(name.value.text), Get(body, "params"));
    }

    /** The confirmed text is handed out once. */
    method TakeDocumentUpdate() returns (update: Option<Update>)
      modifies this`pendingUpdate
      ensures update == old(pendingUpdate) && pendingUpdate == None
    {
      update := pendingUpdate;
      pendingUpdate := None;
    }

    method ConsumeClientBudget(bytes: nat, now: int) returns (answer: Answer)
      modifies this`windowStartedAt, this`messagesInWindow, this`sessionBytes
      ensures var g := AtTime(config, old(View()), now);
              && answer == BudgetAnswer(config, g, bytes)
              && View() == if answer == Accepted then Charged(g, bytes) else g
    {
      if now - windowStartedAt >= config.rateWindowMs {
        windowStartedAt := now;
        messagesInWindow := 0;
      }
      if messagesInWindow >= config.maxMessagesPerWindow {
        return OVERLOAD;
      }
      if sessionBytes + bytes > config.maxSessionBytes {
        return SIZE;
      }
      messagesInWindow := messagesInWindow + 1;
      sessionBytes := sessionBytes + bytes;
      return Accepted;
    }

    /**
     A method is accepted exactly in its stage of the session and with sound parameters; then its
     effect, and nothing else, takes place, and otherwise nothing does.
     */
    method ValidateClientMethod(name: string, params: Maybe) returns (answer: Answer)
      requires Valid()
      modifies this`documents, this`documentBytes, this`pendingUpdate,
               this`initializeSeen, this`initializedSeen, this`shutdownSeen
      ensures answer == if MayCall(config, old(View()), KindOf(name), params) then Accepted else POLICY
      ensures View() == if answer == Accepted then Effect(config, old(View()), KindOf(name), params) else old(View())
    {
      hide TotalBytes, CanOpen, CanChange, CanClose, CanSave, InitializeOk, Edited, WithoutDocument,
           KindOf, CLIENT_METHODS;
      LifecycleKinds();
      if name !in CLIENT_METHODS {
        NotAMethod(name);
        return POLICY;
      }
      if name == "$/cancelRequest" || name == "$/setTrace" {
        return Accepted;
      }
      if name == "initialize" {
        var ok := IsValidInitializeParams(config, params);
        if initializeSeen || !ok {
          return POLICY;
        }
        initializeSeen := true;
        return Accepted;
      }
      if name == "initialized" {
        if !initializeSeen || initializedSeen {
          return POLICY;
        }
        initializedSeen := true;
        return Accepted;
      }
      if name == "shutdown" {
        if !initializedSeen || shutdownSeen {
          return POLICY;
        }
        shutdownSeen := true;
        return Accepted;
      }
      if name == "exit" {
        return if shutdownSeen then Accepted else POLICY;
      }
      if !initializedSeen || shutdownSeen {
        ActiveMethod(name);
        return POLICY;
      }
      answer := ValidateActive(name, params);
    }

    /** The methods of an active session. */
    method ValidateActive(name: string, params: Maybe) returns (answer: Answer)
      requires Valid() && StageOf(View()) == Active && name in CLIENT_METHODS
      requires name !in {"$/cancelRequest", "$/setTrace", "initialize", "initialized", "shutdown", "exit"}
      modifies this`documents, this`documentBytes, this`pendingUpdate
      ensures answer == if MayCall(config, old(View()), KindOf(name), params) then Accepted else POLICY
      ensures View() == if answer == Accepted then Effect(config, old(View()), KindOf(name), params) else old(View())
    {
      hide GuardOk, CanOpen, CanChange, CanClose, CanSave, Edited, WithoutDocument, ConfigurationOk,
           KindOf, CLIENT_METHODS, IsDocumentMethod;
      ActiveMethod(name);
      NotificationKinds();
      match name {
        case "textDocument/didOpen" => answer := ValidateDidOpen(params);
        case "textDocument/didChange" => answer := ValidateDidChange(params);
        case "textDocument/didClose" => answer := ValidateDidClose(params);
        case "textDocument/didSave" => answer := ValidateDidSave(params);
        case "workspace/didChangeConfiguration" =>
          var ok := IsSafeConfigurationChange(params);
          answer := if ok then Accepted else POLICY;
        case _ =>
          var allowed := HasAllowedTextDocument(config, params);
          answer := if IsDocumentMethod(name) && !allowed then POLICY else Accepted;
      }
    }

    /** Opened exactly when allowed, not open, sound, and all open texts together fit. */
    method ValidateDidOpen(params: Maybe) returns (answer: Answer)
      requires Valid()
      modifies this`documents, this`documentBytes, this`pendingUpdate
      ensures answer == if CanOpen(config, old(documents), params) then Accepted else POLICY
      ensures View() == if answer == Accepted then Edited(old(View()), OpenEdit(params)) else old(View())
    {
      hide TotalBytes, Utf8Length;
      if !IsObject(params) || !IsObject(Get(params.value, "textDocument")) {
        return POLICY;
      }
      var document := Get(params.value, "textDocument").value;
      var uri, text, version := Get(document, "uri"), Get(document, "text"), Get(document, "version");
      if !IsText(uri) || !IsText(text) || !IsIndex(version) {
        return POLICY;
      }
      TotalWith(documents, uri.value.text, OpenEdit(params).doc);
      if uri.value.text !in config.documentUris || uri.value.text in documents
         || !IsSafe(text.value.text, config.maxDocumentBytes) {
        return POLICY;
      }
      var bytes := Utf8Length(text.value.text);
      if documentBytes + bytes > config.maxDocumentBytes {
        return POLICY;
      }
      documents := documents[uri.value.text := Tracked(text.value.text, Index(version), bytes)];
      documentBytes := documentBytes + bytes;
      pendingUpdate := Some(Update(uri.value.text, text.value.text, false));
      return Accepted;
    }

    /** Changed exactly when open, newer, all changes apply, and all open texts together fit. */
    method ValidateDidChange(params: Maybe) returns (answer: Answer)
      requires Valid()
      modifies this`documents, this`documentBytes, this`pendingUpdate
      ensures answer == if CanChange(config, old(documents), params) then Accepted else POLICY
      ensures View() == if answer == Accepted then Edited(old(View()), ChangeEdit(config, old(documents), params))
                        else old(View())
    {
      hide GuardOk, Fits, Edited, Utf8Length, AppliedAll;
      if !IsObject(params) || !IsObject(Get(params.value, "textDocument")) {
        return POLICY;
      }
      var document := Get(params.value, "textDocument").value;
      var uri, version := Get(document, "uri"), Get(document, "version");
      var changes := Get(params.value, "contentChanges");
      if !IsText(uri) || !IsIndex(version) || changes.Undefined? || !changes.value.Arr?
         || changes.value.elems == [] || |changes.value.elems| > LSP_MAX_CONTENT_CHANGES {
        return POLICY;
      }
      if uri.value.text !in documents || Index(version) <= documents[uri.value.text].version {
        return POLICY;
      }
      var next := ApplyAll(documents[uri.value.text].text, changes.value.elems, config.maxDocumentBytes);
      if next.None? {
        return POLICY;
      }
      answer := StoreDocument(uri.value.text, Tracked(next.value, Index(version), Utf8Length(next.value)));
    }

    /** Closed exactly when open; the document's bytes are given back. */
    method ValidateDidClose(params: Maybe) returns (answer: Answer)
      requires Valid()
      modifies this`documents, this`documentBytes
      ensures answer == if CanClose(old(documents), params) then Accepted else POLICY
      ensures View() == if answer == Accepted then WithoutDocument(old(View()), Named(params)) else old(View())
    {
      hide TotalBytes;
      if !IsObject(params) || !IsObject(Get(params.value, "textDocument")) {
        return POLICY;
      }
      var uri := Get(Get(params.value, "textDocument").value, "uri");
      if !IsText(uri) || uri.value.text !in documents {
        return POLICY;
      }
      TotalWithout(documents, uri.value.text);
      documentBytes := documentBytes - documents[uri.value.text].bytes;
      documents := documents - {uri.value.text};
      return Accepted;
    }

    /** A text that comes with the save is tracked exactly when it is sound and fits. */
    method ValidateDidSave(params: Maybe) returns (answer: Answer)
      requires Valid()
      modifies this`documents, this`documentBytes, this`pendingUpdate
      ensures answer == if CanSave(config, old(documents), params) then Accepted else POLICY
      ensures View() == if answer == Accepted && SavesText(params)
                        then Edited(old(View()), SaveEdit(old(documents), params)) else old(View())
    {
      hide TotalBytes, Utf8Length, Edited;
      if !IsObject(params) || !IsObject(Get(params.value, "textDocument")) {
        return POLICY;
      }
      var uri := Get(Get(params.value, "textDocument").value, "uri");
      if !IsText(uri) || uri.value.text !in documents {
        return POLICY;
      }
      var text := Get(params.value, "text");
      if text.Undefined? {
        return Accepted;
      }
      if !IsText(text) {
        return POLICY;
      }
      TotalWith(documents, uri.value.text, SaveEdit(documents, params).doc);
      TotalWithout(documents, uri.value.text);
      if !IsSafe(text.value.text, config.maxDocumentBytes) {
        return POLICY;
      }
      answer := StoreDocument(uri.value.text,
        documents[uri.value.text].(text := text.value.text, bytes := Utf8Length(text.value.text)));
    }

    /** The running byte count decides as the sum over all open documents would. */
    method StoreDocument(uri: Text, doc: Tracked) returns (answer: Answer)
      requires Valid() && uri in documents
      modifies this`documents, this`documentBytes, this`pendingUpdate
      ensures answer == if Fits(config, old(documents), Edit(uri, doc, true)) then Accepted else POLICY
      ensures View() == if answer == Accepted then Edited(old(View()), Edit(uri, doc, true)) else old(View())
    {
      hide TotalBytes;
      TotalWith(documents, uri, doc);
      var total := documentBytes - documents[uri].bytes + doc.bytes;
      if total > config.maxDocumentBytes {
        return POLICY;
      }
      documentBytes := total;
      documents := documents[uri := doc];
      pendingUpdate := Some(Update(uri, doc.text, true));
      return Accepted;
    }
  }

  /** The change loop of `didChange`: stop at the first change that does not apply. */
  method ApplyAll(t: Text, changes: seq<Json>, max: nat) returns (r: Option<Text>)
    ensures r == AppliedAll(t, changes, max)
  {
    var next := t;
    for i := 0 to |changes|
      invariant AppliedAll(t, changes, max) == AppliedAll(next, changes[i..], max)
    {
      assert changes[i..][0] == changes[i] && changes[i..][1..] == changes[i + 1..];
      var applied := ApplyDocumentChange(next, changes[i], max);
      if applied.None? {
        return None;
      }
      next := applied.value;
    }
    return Some(next);
  }

  // ---- the checks of single values ---------------------------------------------------------------

  method IsJsonRpcResponse(body: Json) returns (ok: bool)
    ensures ok <==> IsResponse(body)
  {
    var id := Get(body, "id");
    var hasValidId := id.Defined? && match id.value { case Str(_) | Num(_) | Null => true case _ => false };
    var hasResult, hasError := Get(body, "result").Defined?, Get(body, "error").Defined?;
    ok := hasValidId && hasResult != hasError;
  }

  /** The initialization names no root but the session's workspace and passes no options on. */
  method IsValidInitializeParams(c: GuardConfig, params: Maybe) returns (ok: bool)
    ensures ok <==> InitializeOk(c, params)
  {
    if params.Undefined? || !params.value.Obj? {
      return false;
    }
    if Get(params.value, "rootUri") != Defined(Str(c.workspaceUri)) {
      return false;
    }
    var rootPath := Get(params.value, "rootPath");
    if rootPath.Defined? && rootPath.value != Null && rootPath.value != Str(c.workspacePath) {
      return false;
    }
    var folders := Get(params.value, "workspaceFolders");
    if folders.Defined? && folders.value != Null {
      if !folders.value.Arr? || |folders.value.elems| != 1 {
        return false;
      }
      var folder := folders.value.elems[0];
      if !folder.Obj? || Get(folder, "uri") != Defined(Str(c.workspaceUri)) {
        return false;
      }
    }
    var options := Get(params.value, "initializationOptions");
    if options.Defined? && options.value != Null && (!options.value.Obj? || |options.value.fields| > 0) {
      return false;
    }
    return true;
  }

  method IsSafeConfigurationChange(params: Maybe) returns (ok: bool)
    ensures ok <==> ConfigurationOk(params)
  {
    if params.Undefined? || !params.value.Obj? {
      return false;
    }
    var settings := Get(params.value, "settings");
    ok := settings.Undefined? || settings.value == Null || (settings.value.Obj? && |settings.value.fields| == 0);
  }

  method HasAllowedTextDocument(c: GuardConfig, params: Maybe) returns (ok: bool)
    ensures ok <==> NamesDocument(params) && Named(params) in c.documentUris
  {
    if params.Undefined? || !params.value.Obj? {
      return false;
    }
    var document := Get(params.value, "textDocument");
    if document.Undefined? || !document.value.Obj? {
      return false;
    }
    var uri := Get(document.value, "uri");
    ok := uri.Defined? && uri.value.Str? && uri.value.text in c.documentUris;
  }
}
