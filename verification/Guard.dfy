/**
 The LSP JSON-RPC guard as a function of its state: what one client message is
 answered and what it leaves behind.
 */
module Guard {
  import opened Common
  import opened Text
  import opened Json
  import opened Positions
  import opened Sums

  datatype GuardConfig = GuardConfig(
    documentUris: set<Text>,
    workspaceUri: Text,
    workspacePath: Text,
    maxDocumentBytes: nat,
    rateWindowMs: nat,
    maxMessagesPerWindow: nat,
    maxSessionBytes: nat)

  datatype Tracked = Tracked(text: Text, version: nat, bytes: nat)

  /** A confirmed full text to be written to the workspace. */
  datatype Update = Update(uri: Text, text: Text, notifyDependents: bool)

  datatype Answer = Accepted | Rejected(closeCode: nat)

  const POLICY := Rejected(1008)
  const SIZE := Rejected(1009)
  const OVERLOAD := Rejected(1013)

  const LSP_MAX_CONTENT_CHANGES := 128

  datatype GuardState = GuardState(
    documents: map<Text, Tracked>,
    documentBytes: int,
    initializeSeen: bool,
    initializedSeen: bool,
    shutdownSeen: bool,
    update: Option<Update>,
    windowStartedAt: int,
    messagesInWindow: nat,
    sessionBytes: nat)

  function Fresh(now: int): GuardState {
    GuardState(map[], 0, false, false, false, None, now, 0, 0)
  }

  /** A client message: its size, its arrival time and, if it parsed, its value. */
  datatype Message = Message(bytes: nat, now: int, body: Option<Json>)

  // ---- methods --------------------------------------------------------------------------

  datatype Kind =
    | Ignored | Initialize | Initialized | Shutdown | Exit
    | DidOpen | DidChange | DidClose | DidSave | DidChangeConfiguration
    | DocumentRequest | OtherRequest | Forbidden

  /** `textDocument/` requests; each must name a document of the session. */
  const DOCUMENT_REQUESTS := {
    "codeAction", "codeLens", "colorPresentation", "completion", "declaration", "definition", "diagnostic",
    "documentColor", "documentHighlight", "documentLink", "documentSymbol", "foldingRange", "formatting",
    "hover", "implementation", "inlayHint", "linkedEditingRange", "moniker", "onTypeFormatting",
    "prepareRename", "rangeFormatting", "references", "rename", "selectionRange", "semanticTokens/full",
    "semanticTokens/full/delta", "semanticTokens/range", "signatureHelp", "typeDefinition", "willSave",
    "willSaveWaitUntil"}

  const OTHER_REQUESTS := {
    "codeAction/resolve", "codeLens/resolve", "colorPresentation", "completionItem/resolve",
    "documentLink/resolve", "inlayHint/resolve", "window/workDoneProgress/cancel"}

  /** Every method a client may call. */
  const CLIENT_METHODS: set<string> :=
    {"$/cancelRequest", "$/setTrace", "initialize", "initialized", "shutdown", "exit",
     "textDocument/didOpen", "textDocument/didChange", "textDocument/didClose", "textDocument/didSave",
     "workspace/didChangeConfiguration"}
    + OTHER_REQUESTS + set r | r in DOCUMENT_REQUESTS :: "textDocument/" + r

  function KindOf(name: string): Kind {
    if name == "$/cancelRequest" || name == "$/setTrace" then Ignored
    else if name == "initialize" then Initialize
    else if name == "initialized" then Initialized
    else if name == "shutdown" then Shutdown
    else if name == "exit" then Exit
    else if name == "textDocument/didOpen" then DidOpen
    else if name == "textDocument/didChange" then DidChange
    else if name == "textDocument/didClose" then DidClose
    else if name == "textDocument/didSave" then DidSave
    else if name == "workspace/didChangeConfiguration" then DidChangeConfiguration
    else if |name| >= 13 && name[..13] == "textDocument/" && name[13..] in DOCUMENT_REQUESTS then DocumentRequest
    else if name in OTHER_REQUESTS then OtherRequest
    else Forbidden
  }

  /** The text is spelled like this method name. */
  predicate Spells(t: Text, name: string) {
    |t| == |name| && forall i :: 0 <= i < |t| ==> t[i] == name[i] as int
  }

  /** The text as an ASCII string, or the empty string if it is not ASCII. */
  function AsAscii(t: Text): string {
    if forall i :: 0 <= i < |t| ==> t[i] < 0x80 then
      seq(|t|, i requires 0 <= i < |t| && t[i] < 0x80 => t[i] as char)
    else ""
  }

  // ---- budget ---------------------------------------------------------------------------

  /** The window as it stands at `now`: restarted once its length has passed. */
  function AtTime(c: GuardConfig, g: GuardState, now: int): GuardState {
    if now - g.windowStartedAt >= c.rateWindowMs then g.(windowStartedAt := now, messagesInWindow := 0) else g
  }

  function BudgetAnswer(c: GuardConfig, g: GuardState, bytes: nat): Answer {
    if g.messagesInWindow >= c.maxMessagesPerWindow then OVERLOAD
    else if g.sessionBytes + bytes > c.maxSessionBytes then SIZE
    else Accepted
  }

  function Charged(g: GuardState, bytes: nat): GuardState {
    g.(messagesInWindow := g.messagesInWindow + 1, sessionBytes := g.sessionBytes + bytes)
  }

  // ---- documents ------------------------------------------------------------------------

  /** `params.textDocument.uri`, when it is a string. */
  function DocumentUri(params: Maybe): Maybe {
    if IsObject(params) && IsObject(Get(params.value, "textDocument"))
       && IsText(Get(Get(params.value, "textDocument").value, "uri"))
    then Get(Get(params.value, "textDocument").value, "uri")
    else Undefined
  }

  ghost function Sizes(docs: map<Text, Tracked>): map<Text, nat> {
    map uri | uri in docs :: docs[uri].bytes
  }

  /** The sum of the recorded sizes of all open documents. */
  ghost function TotalBytes(docs: map<Text, Tracked>): nat {
    Sum(Sizes(docs))
  }

  /** A document to be tracked under `uri`, and whether its dependents are to be rebuilt. */
  datatype Edit = Edit(uri: Text, doc: Tracked, notify: bool)

  /** All open documents together fit the budget once the edit is made. */
  ghost predicate Fits(c: GuardConfig, docs: map<Text, Tracked>, e: Edit) {
    TotalBytes(docs[e.uri := e.doc]) <= c.maxDocumentBytes
  }

  ghost function Edited(g: GuardState, e: Edit): GuardState {
    var docs := g.documents[e.uri := e.doc];
    g.(documents := docs, documentBytes := TotalBytes(docs), update := Some(Update(e.uri, e.doc.text, e.notify)))
  }

  predicate NamesDocument(params: Maybe) {
    DocumentUri(params).Defined?
  }

  /** The document's identifier, and a property of the `textDocument` object. */
  function Named(params: Maybe): Text
    requires NamesDocument(params)
  {
    DocumentUri(params).value.text
  }

  function Property(params: Maybe, name: string): Maybe
    requires NamesDocument(params)
  {
    Get(Get(params.value, "textDocument").value, name)
  }

  /** An allowed document that is not open, with a NUL-free text and a version. */
  predicate OpensOne(c: GuardConfig, docs: map<Text, Tracked>, params: Maybe) {
    && NamesDocument(params) && Named(params) in c.documentUris && Named(params) !in docs
    && IsText(Property(params, "text")) && NUL !in Property(params, "text").value.text
    && IsIndex(Property(params, "version"))
  }

  function OpenEdit(params: Maybe): Edit
    requires NamesDocument(params) && IsText(Property(params, "text")) && IsIndex(Property(params, "version"))
  {
    var text := Property(params, "text").value.text;
    Edit(Named(params), Tracked(text, Index(Property(params, "version")), Utf8Length(text)), false)
  }

  ghost predicate CanOpen(c: GuardConfig, docs: map<Text, Tracked>, params: Maybe) {
    OpensOne(c, docs, params) && Fits(c, docs, OpenEdit(params))
  }

  /** The text after all changes in order, if every one of them applies. */
  function AppliedAll(t: Text, changes: seq<Json>, max: nat): Option<Text>
    decreases |changes|
  {
    if changes == [] then Some(t)
    else
      var first := Applied(t, changes[0], max);
      if first.None? then None else AppliedAll(first.value, changes[1..], max)
  }

  /** An open document, a newer version, and one to 128 changes that all apply in turn. */
  predicate ChangesOne(c: GuardConfig, docs: map<Text, Tracked>, params: Maybe) {
    && NamesDocument(params) && Named(params) in docs
    && IsIndex(Property(params, "version")) && docs[Named(params)].version < Index(Property(params, "version"))
    && var changes := Get(params.value, "contentChanges");
    && changes.Defined? && changes.value.Arr? && 1 <= |changes.value.elems| <= 128
    && AppliedAll(docs[Named(params)].text, changes.value.elems, c.maxDocumentBytes).Some?
  }

  function ChangeEdit(c: GuardConfig, docs: map<Text, Tracked>, params: Maybe): Edit
    requires ChangesOne(c, docs, params)
  {
    var changes := Get(params.value, "contentChanges").value.elems;
    var text := AppliedAll(docs[Named(params)].text, changes, c.maxDocumentBytes).value;
    Edit(Named(params), Tracked(text, Index(Property(params, "version")), Utf8Length(text)), true)
  }

  ghost predicate CanChange(c: GuardConfig, docs: map<Text, Tracked>, params: Maybe) {
    ChangesOne(c, docs, params) && Fits(c, docs, ChangeEdit(c, docs, params))
  }

  predicate CanClose(docs: map<Text, Tracked>, params: Maybe) {
    NamesDocument(params) && Named(params) in docs
  }

  ghost function WithoutDocument(g: GuardState, uri: Text): GuardState {
    g.(documents := g.documents - {uri}, documentBytes := TotalBytes(g.documents - {uri}))
  }

  /** A save may carry the full text, which is then tracked under the same version. */
  predicate SavesText(params: Maybe) {
    IsObject(params) && Get(params.value, "text").Defined?
  }

  function SaveEdit(docs: map<Text, Tracked>, params: Maybe): Edit
    requires CanClose(docs, params) && IsText(Get(params.value, "text"))
  {
    var text := Get(params.value, "text").value.text;
    Edit(Named(params), docs[Named(params)].(text := text, bytes := Utf8Length(text)), true)
  }

  ghost predicate CanSave(c: GuardConfig, docs: map<Text, Tracked>, params: Maybe) {
    && CanClose(docs, params)
    && (SavesText(params) ==>
          && IsText(Get(params.value, "text")) && NUL !in Get(params.value, "text").value.text
          && Fits(c, docs, SaveEdit(docs, params)))
  }

  predicate Absent(m: Maybe) {
    m.Undefined? || m.value.Null?
  }

  predicate EmptyObject(m: Maybe) {
    IsObject(m) && m.value.fields == []
  }

  /** Only the session workspace is a root, and no options are passed to clangd. */
  predicate InitializeOk(c: GuardConfig, params: Maybe) {
    && IsObject(params)
    && Get(params.value, "rootUri") == Defined(Str(c.workspaceUri))
    && (Absent(Get(params.value, "rootPath")) || Get(params.value, "rootPath") == Defined(Str(c.workspacePath)))
    && (var folders := Get(params.value, "workspaceFolders");
        || Absent(folders)
        || (&& folders.value.Arr? && |folders.value.elems| == 1
            && Get(folders.value.elems[0], "uri") == Defined(Str(c.workspaceUri))))
    && (Absent(Get(params.value, "initializationOptions")) || EmptyObject(Get(params.value, "initializationOptions")))
  }

  predicate ConfigurationOk(params: Maybe) {
    IsObject(params) && (Absent(Get(params.value, "settings")) || EmptyObject(Get(params.value, "settings")))
  }

  // ---- one message ----------------------------------------------------------------------

  /** The life of a session. */
  datatype Stage = Created | Starting | Active | Stopped

  function StageOf(g: GuardState): Stage {
    if g.shutdownSeen then Stopped
    else if g.initializedSeen then Active
    else if g.initializeSeen then Starting
    else Created
  }

  /** The one stage in which a method is allowed; none for those allowed always or never. */
  function StageFor(kind: Kind): Option<Stage> {
    match kind
    case Ignored | Forbidden => None
    case Initialize => Some(Created)
    case Initialized => Some(Starting)
    case Exit => Some(Stopped)
    case _ => Some(Active)
  }

  /** What a method's parameters must satisfy. */
  ghost predicate ContentOk(c: GuardConfig, docs: map<Text, Tracked>, kind: Kind, params: Maybe) {
    match kind
    case Initialize => InitializeOk(c, params)
    case DidOpen => CanOpen(c, docs, params)
    case DidChange => CanChange(c, docs, params)
    case DidClose => CanClose(docs, params)
    case DidSave => CanSave(c, docs, params)
    case DidChangeConfiguration => ConfigurationOk(params)
    case DocumentRequest => NamesDocument(params) && Named(params) in c.documentUris
    case Forbidden => false
    case _ => true
  }

  ghost predicate MayCall(c: GuardConfig, g: GuardState, kind: Kind, params: Maybe) {
    && (StageFor(kind).Some? ==> StageFor(kind).value == StageOf(g))
    && ContentOk(c, g.documents, kind, params)
  }

  /** What an allowed method changes. */
  ghost function Effect(c: GuardConfig, g: GuardState, kind: Kind, params: Maybe): GuardState
    requires ContentOk(c, g.documents, kind, params)
  {
    match kind
    case Initialize => g.(initializeSeen := true)
    case Initialized => g.(initializedSeen := true)
    case Shutdown => g.(shutdownSeen := true)
    case DidOpen => Edited(g, OpenEdit(params))
    case DidChange => Edited(g, ChangeEdit(c, g.documents, params))
    case DidClose => WithoutDocument(g, Named(params))
    case DidSave => if SavesText(params) then Edited(g, SaveEdit(g.documents, params)) else g
    case _ => g
  }

  ghost function OnMethod(c: GuardConfig, g: GuardState, kind: Kind, params: Maybe): (GuardState, Answer) {
    if MayCall(c, g, kind, params) then (Effect(c, g, kind, params), Accepted) else (g, POLICY)
  }

  /** A response carries an id and exactly one of result and error. */
  predicate IsResponse(body: Json) {
    && Get(body, "id").Defined?
    && var id := Get(body, "id").value;
    && (id.Str? || id.Num? || id.Null?)
    && Get(body, "result").Defined? != Get(body, "error").Defined?
  }

  /** Within the search limits and naming no URI outside the session. */
  ghost predicate WithinSession(c: GuardConfig, body: Json) {
    Weight(body) <= 16384 && Shallow(body, 0) && Clean(body, c.documentUris, c.workspaceUri)
  }

  predicate IsEnvelope(m: Message) {
    m.body.Some? && m.body.value.Obj?
    && IsText(Get(m.body.value, "jsonrpc")) && AsAscii(Get(m.body.value, "jsonrpc").value.text) == "2.0"
  }

  /** The part of `validateClientMessage` after the budget. */
  ghost function OnBody(c: GuardConfig, g: GuardState, m: Message): (GuardState, Answer) {
    if !IsEnvelope(m) || !WithinSession(c, m.body.value) then (g, POLICY)
    else
      var name := Get(m.body.value, "method");
      if name.Undefined? then (g, if IsResponse(m.body.value) then Accepted else POLICY)
      else if !name.value.Str? then (g, POLICY)
      else OnMethod(c, g, KindOf(AsAscii(name.value.text)), Get(m.body.value, "params"))
  }

  /** `validateClientMessage`. */
  ghost function OnMessage(c: GuardConfig, g: GuardState, m: Message): (GuardState, Answer) {
    var g1 := AtTime(c, g.(update := None), m.now);
    var budget := BudgetAnswer(c, g1, m.bytes);
    if budget != Accepted then (g1, budget) else OnBody(c, Charged(g1, m.bytes), m)
  }

  // ---- a message by its text --------------------------------------------------------------

  /** `value.name`, also of a value that is not there. */
  function At(m: Maybe, name: string): Maybe {
    if m.Defined? then Get(m.value, name) else Undefined
  }

  function Body(m: Message): Maybe {
    if m.body.Some? then Defined(m.body.value) else Undefined
  }

  function Document(m: Message): Maybe {
    At(At(Body(m), "params"), "textDocument")
  }

  /** The message calls the method of this name. */
  predicate Calls(m: Message, name: string) {
    IsText(At(Body(m), "method")) && Spells(At(Body(m), "method").value.text, name)
  }

  /** The message is about the document `uri`. */
  predicate Concerns(m: Message, uri: Text) {
    At(Document(m), "uri") == Defined(Str(uri))
  }
}
