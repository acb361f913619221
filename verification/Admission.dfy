/** The four validators a project passes on its way from the browser to a worker. */
module Admission {
  import opened Common
  import opened Text
  import opened Utf8
  import opened Names

  const MAX_FILES := 16
  const MAX_BYTES := 64 * 1024

  // ---- the browser side: parsed JSON of any shape ---------------------------------------------

  /** `None` where the property is not a string. */
  datatype Entry = NotARecord | Entry(name: Option<Text>, content: Option<Text>)

  datatype Files = NotAnArray | Files(entries: seq<Entry>)

  datatype SourceFile = SourceFile(name: Text, content: Text)

  ghost predicate NameOk(e: Entry) {
    e.Entry? && e.name.Some? && MatchesPattern(e.name.value)
  }

  ghost predicate ContentOk(e: Entry) {
    e.Entry? && e.content.Some? && NUL !in e.content.value
  }

  function NameOf(e: Entry): Text {
    if e.Entry? && e.name.Some? then e.name.value else []
  }

  function ContentOf(e: Entry): Text {
    if e.Entry? && e.content.Some? then e.content.value else []
  }

  function NamesOf(es: seq<Entry>): seq<seq<int>> {
    seq(|es|, i requires 0 <= i < |es| => NameOf(es[i]))
  }

  function TotalBytes(es: seq<Entry>): nat {
    if es == [] then 0 else TotalBytes(es[..|es| - 1]) + Utf8Length(ContentOf(es[|es| - 1]))
  }

  /** Nothing is wrong with the files themselves, one by one and in pairs. */
  ghost predicate EachOk(es: seq<Entry>) {
    && (forall i :: 0 <= i < |es| ==> NameOk(es[i]) && ContentOk(es[i]))
    && Unlike(NamesOf(es))
  }

  ghost predicate HasMain(es: seq<Entry>) {
    exists i :: 0 <= i < |es| && SameName(NameOf(es[i]), MAIN)
  }

  /** What the browser side admits. */
  ghost predicate FilesOk(files: Files) {
    && files.Files?
    && 1 <= |files.entries| <= 16
    && EachOk(files.entries)
    && HasMain(files.entries)
    && TotalBytes(files.entries) <= 65536
  }

  /** The files before position `i`, as the loops below have collected them. */
  lemma OneFileMore(es: seq<Entry>, i: nat)
    requires i < |es| && EachOk(es[..i])
    ensures NamesOf(es[..i + 1]) == NamesOf(es[..i]) + [NameOf(es[i])]
    ensures TotalBytes(es[..i + 1]) == TotalBytes(es[..i]) + Utf8Length(ContentOf(es[i]))
    ensures Seen(NamesOf(es[..i + 1])) == Seen(NamesOf(es[..i])) + {Lower(NameOf(es[i]))}
    ensures EachOk(es[..i + 1]) <==>
            NameOk(es[i]) && ContentOk(es[i]) && Lower(NameOf(es[i])) !in Seen(NamesOf(es[..i]))
  {
    hide MatchesPattern, Lower, Seen, Utf8Length;
    var more := es[..i + 1];
    assert more[..i] == es[..i] && more[i] == es[i];
    assert NamesOf(more) == NamesOf(es[..i]) + [NameOf(es[i])];
    UnlikeGrows(NamesOf(es[..i]), NameOf(es[i]));
    assert forall k :: 0 <= k < i ==> more[k] == es[..i][k];
  }

  /** A prefix of sound files is sound, so the first unsound one decides. */
  lemma EachOkPrefix(es: seq<Entry>, k: nat)
    requires k <= |es| && EachOk(es)
    ensures EachOk(es[..k]) && TotalBytes(es[..k]) <= TotalBytes(es)
  {
    hide NameOk, ContentOk, NameOf, Lower, TotalBytes;
    assert NamesOf(es[..k]) == NamesOf(es)[..k];
    UnlikePrefix(NamesOf(es), k);
    TotalGrows(es, k);
  }

  lemma {:induction false} TotalGrows(es: seq<Entry>, k: nat)
    requires k <= |es|
    ensures TotalBytes(es[..k]) <= TotalBytes(es)
    decreases |es|
  {
    if k < |es| {
      var front := es[..|es| - 1];
      TotalGrows(front, k);
      assert front[..k] == es[..k];
    } else {
      assert es[..k] == es;
    }
  }

  lemma MainSeen(es: seq<Entry>)
    ensures MAIN in Seen(NamesOf(es)) <==> HasMain(es)
  {
    hide Lower, SameName;
    SeenMeans(NamesOf(es), MAIN);
    assert Lower(MAIN) == MAIN by { MainIsLower(); }
    forall i | 0 <= i < |es| ensures Lower(NamesOf(es)[i]) == MAIN <==> SameName(NameOf(es[i]), MAIN) {
      LowerMeans(NameOf(es[i]), MAIN);
    }
  }

  lemma MainIsLower()
    ensures Lower(MAIN) == MAIN
  {
  }

  /** The contracts package's check, used by the language server. */
  method IsValidSourceFiles(files: Files) returns (ok: bool)
    ensures ok <==> FilesOk(files)
  {
    hide Lower, Seen, MatchesPattern, Utf8Length, EachOk, HasMain, TotalBytes, NamesOf;
    if files.NotAnArray? || |files.entries| == 0 || |files.entries| > MAX_FILES {
      return false;
    }
    var es := files.entries;
    var names: set<seq<int>> := {};
    var totalBytes: nat := 0;
    NoFiles(es);
    for i := 0 to |es|
      invariant EachOk(es[..i])
      invariant names == Seen(NamesOf(es[..i]))
      invariant totalBytes == TotalBytes(es[..i])
    {
      OneFileMore(es, i);
      if EachOk(es) {
        EachOkPrefix(es, i + 1);
      }
      var nameOk := CheckName(es[i]);
      if !nameOk || !es[i].content.Some? || !IsSafe(es[i].content.value, MAX_BYTES) {
        return false;
      }
      var normalized := Lower(es[i].name.value);
      if normalized in names {
        return false;
      }
      names := names + {normalized};
      totalBytes := totalBytes + Utf8Length(es[i].content.value);
    }
    assert es[..|es|] == es;
    MainSeen(es);
    return MAIN in names && totalBytes <= MAX_BYTES;
  }

  lemma NoFiles(es: seq<Entry>)
    ensures EachOk(es[..0]) && Seen(NamesOf(es[..0])) == {} && TotalBytes(es[..0]) == 0
  {
  }

  method CheckName(e: Entry) returns (ok: bool)
    ensures ok <==> NameOk(e)
  {
    if e.NotARecord? || e.name.None? {
      return false;
    }
    var t := e.name.value;
    if !(3 <= |t| <= MAX_NAME && IsAlphanumeric(t[0]) && t[|t| - 2] == 46 && t[|t| - 1] in {99, 104}) {
      return false;
    }
    for i := 0 to |t| - 2
      invariant forall k :: 0 <= k < i ==> IsStem(t[k])
    {
      if !IsStem(t[i]) {
        return false;
      }
    }
    return true;
  }

  datatype Fault =
    | NotArray | BadCount | BadName | BadContent | Duplicate | NoMain | TooLarge | Empty
    | BadVisitor | BadAddress | BadTerminal

  datatype Result<T> = Ok(value: T) | Err(fault: Fault)

  /** The fault a rejected list is charged with is its first one. */
  ghost predicate IsFirstFault(files: Files, fault: Fault) {
    match files
    case NotAnArray => fault == NotArray
    case Files(es) =>
      if !(1 <= |es| <= MAX_FILES) then fault == BadCount
      else if EachOk(es) then
        if HasMain(es) then TotalBytes(es) > MAX_BYTES && fault == TooLarge else fault == NoMain
      else
        exists i ::
          && 0 <= i < |es| && EachOk(es[..i]) && !EachOk(es[..i + 1])
          && fault == FaultOf(es[i])
  }

  /** What is wrong with a file that breaks the list; a sound one can only repeat a name. */
  ghost function FaultOf(e: Entry): Fault {
    if !NameOk(e) then BadName else if !ContentOk(e) then BadContent else Duplicate
  }

  /** The web server's check: it admits the same lists, and says what is wrong with the others. */
  method ValidateFiles(files: Files) returns (r: Result<seq<SourceFile>>)
    ensures r.Ok? <==> FilesOk(files)
    ensures r.Err? ==> IsFirstFault(files, r.fault)
    ensures r.Ok? ==> |r.value| == |files.entries|
    ensures r.Ok? ==>
              forall i :: 0 <= i < |r.value| ==>
                files.entries[i] == Entry(Some(r.value[i].name), Some(r.value[i].content))
  {
    hide Lower, Seen, MatchesPattern, Utf8Length, EachOk, HasMain, TotalBytes, NamesOf;
    if files.NotAnArray? {
      return Err(NotArray);
    }
    var es := files.entries;
    if |es| == 0 || |es| > MAX_FILES {
      return Err(BadCount);
    }
    var names: set<seq<int>> := {};
    var totalBytes: nat := 0;
    var validated: seq<SourceFile> := [];
    NoFiles(es);
    for i := 0 to |es|
      invariant EachOk(es[..i])
      invariant names == Seen(NamesOf(es[..i]))
      invariant totalBytes == TotalBytes(es[..i])
      invariant |validated| == i
      invariant forall k :: 0 <= k < i ==> es[k] == Entry(Some(validated[k].name), Some(validated[k].content))
    {
      OneFileMore(es, i);
      if EachOk(es) {
        EachOkPrefix(es, i + 1);
      }
      var nameOk := CheckName(es[i]);
      if !nameOk {
        return Err(BadName);
      }
      if !es[i].content.Some? || NUL in es[i].content.value {
        return Err(BadContent);
      }
      var normalized := Lower(es[i].name.value);
      if normalized in names {
        return Err(Duplicate);
      }
      names := names + {normalized};
      totalBytes := totalBytes + Utf8Length(es[i].content.value);
      validated := validated + [SourceFile(es[i].name.value, es[i].content.value)];
    }
    assert es[..|es|] == es;
    MainSeen(es);
    if MAIN !in names {
      return Err(NoMain);
    }
    if totalBytes > MAX_BYTES {
      return Err(TooLarge);
    }
    return Ok(validated);
  }

  // ---- the Rust side: UTF-8 strings -------------------------------------------------------------

  datatype RustFile = RustFile(name: seq<Byte>, content: seq<Byte>)

  function RustNames(fs: seq<RustFile>): seq<seq<int>> {
    seq(|fs|, i requires 0 <= i < |fs| => fs[i].name)
  }

  function RustTotal(fs: seq<RustFile>): nat {
    if fs == [] then 0 else RustTotal(fs[..|fs| - 1]) + |fs[|fs| - 1].content|
  }

  ghost predicate RustFileOk(f: RustFile) {
    IsValidSourceFileName(f.name) && 0 !in f.content
  }

  ghost predicate RustEachOk(fs: seq<RustFile>) {
    (forall i :: 0 <= i < |fs| ==> RustFileOk(fs[i])) && Unlike(RustNames(fs))
  }

  ghost predicate RustHasMain(fs: seq<RustFile>) {
    exists i :: 0 <= i < |fs| && fs[i].name == MAIN
  }

  /** What the Rust services admit. */
  ghost predicate Admissible(fs: seq<RustFile>) {
    && 1 <= |fs| <= 16
    && RustEachOk(fs)
    && RustHasMain(fs)
    && 1 <= RustTotal(fs) <= 65536
  }

  lemma OneRustFileMore(fs: seq<RustFile>, i: nat)
    requires i < |fs| && RustEachOk(fs[..i])
    ensures RustTotal(fs[..i + 1]) == RustTotal(fs[..i]) + |fs[i].content|
    ensures RustHasMain(fs[..i + 1]) <==> RustHasMain(fs[..i]) || fs[i].name == MAIN
    ensures Seen(RustNames(fs[..i + 1])) == Seen(RustNames(fs[..i])) + {Lower(fs[i].name)}
    ensures RustEachOk(fs[..i + 1]) <==>
            RustFileOk(fs[i]) && Lower(fs[i].name) !in Seen(RustNames(fs[..i]))
  {
    hide RustFileOk, Lower, Seen;
    var more := fs[..i + 1];
    assert more[..i] == fs[..i] && more[i] == fs[i];
    assert RustNames(more) == RustNames(fs[..i]) + [fs[i].name];
    UnlikeGrows(RustNames(fs[..i]), fs[i].name);
    assert forall k :: 0 <= k < i ==> more[k] == fs[..i][k];
  }

  lemma RustEachOkPrefix(fs: seq<RustFile>, k: nat)
    requires k <= |fs| && RustEachOk(fs)
    ensures RustEachOk(fs[..k])
  {
    hide RustFileOk, Lower;
    assert RustNames(fs[..k]) == RustNames(fs)[..k];
    UnlikePrefix(RustNames(fs), k);
  }

  lemma NoRustFiles(fs: seq<RustFile>)
    ensures RustEachOk(fs[..0]) && !RustHasMain(fs[..0])
    ensures Seen(RustNames(fs[..0])) == {} && RustTotal(fs[..0]) == 0
  {
  }

  datatype Request = Request(files: seq<RustFile>, visitorId: seq<Byte>, clientIp: seq<Byte>, cols: int, rows: int)

  predicate TerminalOk(cols: int, rows: int) {
    20 <= cols <= 240 && 5 <= rows <= 80
  }

  /** What is wrong with the first file that breaks the list; the API looks at its name before its content. */
  ghost function RustFaultOf(fs: seq<RustFile>, i: nat): Fault
    requires i < |fs|
  {
    if !IsValidSourceFileName(fs[i].name) then BadName
    else if exists j :: 0 <= j < i && SameName(fs[j].name, fs[i].name) then Duplicate
    else BadContent
  }

  ghost predicate BreaksAt(fs: seq<RustFile>, i: nat) {
    i < |fs| && RustEachOk(fs[..i]) && !RustEachOk(fs[..i + 1])
  }

  /** The fault a refused request is charged with is the first one in the API's order. */
  ghost predicate IsFirstRequestFault(r: Request, fault: Fault) {
    var fs := r.files;
    if !(1 <= |fs| <= MAX_FILES) then fault == BadCount
    else if !RustEachOk(fs) then exists i: nat :: BreaksAt(fs, i) && fault == RustFaultOf(fs, i)
    else if !RustHasMain(fs) then fault == NoMain
    else if RustTotal(fs) == 0 then fault == Empty
    else if RustTotal(fs) > MAX_BYTES then fault == TooLarge
    else if !(1 <= |r.visitorId| <= 128) then fault == BadVisitor
    else if !(1 <= |r.clientIp| <= 64) then fault == BadAddress
    else fault == BadTerminal && !TerminalOk(r.cols, r.rows)
  }

  lemma SeenBefore(fs: seq<RustFile>, i: nat)
    requires i < |fs|
    ensures Lower(fs[i].name) in Seen(RustNames(fs[..i])) <==>
            exists j :: 0 <= j < i && SameName(fs[j].name, fs[i].name)
  {
    hide Lower, SameName;
    var names := RustNames(fs[..i]);
    SeenMeans(names, Lower(fs[i].name));
    forall j | 0 <= j < i ensures Lower(names[j]) == Lower(fs[i].name) <==> SameName(fs[j].name, fs[i].name) {
      LowerMeans(fs[j].name, fs[i].name);
    }
  }

  /** The API's check of a whole request. */
  method ValidateRequest(request: Request) returns (r: Result<()>)
    ensures r.Err? ==> IsFirstRequestFault(request, r.fault)
    ensures r.Ok? <==>
            && Admissible(request.files)
            && 1 <= |request.visitorId| <= 128 && 1 <= |request.clientIp| <= 64
            && TerminalOk(request.cols, request.rows)
  {
    hide Lower, Seen, SameName, IsValidSourceFileName, RustEachOk, RustHasMain, RustTotal, RustNames;
    var fs := request.files;
    if fs == [] || |fs| > MAX_FILES {
      return Err(BadCount);
    }
    var names: set<seq<int>> := {};
    var totalBytes: nat := 0;
    var hasMain := false;
    NoRustFiles(fs);
    for i := 0 to |fs|
      invariant RustEachOk(fs[..i])
      invariant names == Seen(RustNames(fs[..i]))
      invariant totalBytes == RustTotal(fs[..i])
      invariant hasMain <==> RustHasMain(fs[..i])
    {
      OneRustFileMore(fs, i);
      SeenBefore(fs, i);
      assert !RustEachOk(fs[..i + 1]) ==> BreaksAt(fs, i);
      if RustEachOk(fs) {
        RustEachOkPrefix(fs, i + 1);
      }
      if !IsValidSourceFileName(fs[i].name) {
        return Err(BadName);
      }
      if Lower(fs[i].name) in names {
        return Err(Duplicate);
      }
      names := names + {Lower(fs[i].name)};
      if 0 in fs[i].content {
        return Err(BadContent);
      }
      hasMain := hasMain || fs[i].name == MAIN;
      totalBytes := totalBytes + |fs[i].content|;
    }
    assert fs[..|fs|] == fs;
    if !hasMain {
      return Err(NoMain);
    }
    if totalBytes == 0 {
      return Err(Empty);
    }
    if totalBytes > MAX_BYTES {
      return Err(TooLarge);
    }
    if request.visitorId == [] || |request.visitorId| > 128 {
      return Err(BadVisitor);
    }
    if request.clientIp == [] || |request.clientIp| > 64 {
      return Err(BadAddress);
    }
    if request.cols < 20 || request.cols > 240 || request.rows < 5 || request.rows > 80 {
      return Err(BadTerminal);
    }
    return Ok(());
  }

  /** The worker's check of an assignment: it admits every request the API admitted. */
  method ValidateAssignment(request: Request) returns (ok: bool)
    ensures ok <==> Admissible(request.files) && TerminalOk(request.cols, request.rows)
  {
    hide Lower, Seen, IsValidSourceFileName, RustEachOk, RustHasMain, RustTotal, RustNames;
    var fs := request.files;
    if fs == [] || |fs| > MAX_FILES {
      return false;
    }
    var names: set<seq<int>> := {};
    var totalBytes: nat := 0;
    var hasMain := false;
    NoRustFiles(fs);
    for i := 0 to |fs|
      invariant RustEachOk(fs[..i])
      invariant names == Seen(RustNames(fs[..i]))
      invariant totalBytes == RustTotal(fs[..i])
      invariant hasMain <==> RustHasMain(fs[..i])
    {
      OneRustFileMore(fs, i);
      if RustEachOk(fs) {
        RustEachOkPrefix(fs, i + 1);
      }
      if !IsValidSourceFileName(fs[i].name) {
        return false;
      }
      if Lower(fs[i].name) in names {
        return false;
      }
      names := names + {Lower(fs[i].name)};
      if 0 in fs[i].content {
        return false;
      }
      hasMain := hasMain || fs[i].name == MAIN;
      totalBytes := totalBytes + |fs[i].content|;
    }
    assert fs[..|fs|] == fs;
    if !hasMain {
      return false;
    }
    if totalBytes == 0 || totalBytes > MAX_BYTES {
      return false;
    }
    if request.cols < 20 || request.cols > 240 || request.rows < 5 || request.rows > 80 {
      return false;
    }
    return true;
  }

  // ---- from one side to the other -----------------------------------------------------------------

  /** The files as the API reads them. */
  function Wire(es: seq<Entry>): seq<RustFile> {
    seq(|es|, i requires 0 <= i < |es| => RustFile(Encode(NameOf(es[i])), Encode(ContentOf(es[i]))))
  }

  /** The API's JSON parser takes Unicode strings only; then the API validates. */
  ghost predicate ApiAdmits(es: seq<Entry>) {
    (forall i :: 0 <= i < |es| ==> WellFormed(ContentOf(es[i]))) && Admissible(Wire(es))
  }

  lemma {:induction false} WireTotal(es: seq<Entry>)
    ensures RustTotal(Wire(es)) == TotalBytes(es)
  {
    if es != [] {
      var front := es[..|es| - 1];
      WireTotal(front);
      assert Wire(es)[..|es| - 1] == Wire(front);
      EncodeLength(ContentOf(es[|es| - 1]));
    }
  }

  lemma WireFile(e: Entry)
    requires NameOk(e) && ContentOk(e)
    ensures Encode(NameOf(e)) == NameOf(e)
    ensures RustFileOk(RustFile(Encode(NameOf(e)), Encode(ContentOf(e))))
  {
    NamesAgree(NameOf(e));
    EncodeNul(ContentOf(e));
  }

  lemma WireEachOk(es: seq<Entry>)
    requires EachOk(es)
    ensures RustEachOk(Wire(es)) && RustNames(Wire(es)) == NamesOf(es)
  {
    hide NameOk, ContentOk, RustFileOk, NameOf, ContentOf, Encode, Lower;
    forall i | 0 <= i < |es|
      ensures RustFileOk(Wire(es)[i]) && RustNames(Wire(es))[i] == NamesOf(es)[i]
    {
      WireFile(es[i]);
    }
    assert RustNames(Wire(es)) == NamesOf(es);
  }

  /**
   Of the projects the web server admits the API admits exactly those with a file called main.c
   in lower case, some content, and no lone surrogates.
   */
  lemma ApiAdmitsIff(es: seq<Entry>)
    requires FilesOk(Files(es))
    ensures ApiAdmits(es) <==>
            && (exists i :: 0 <= i < |es| && NameOf(es[i]) == MAIN)
            && TotalBytes(es) > 0
            && (forall i :: 0 <= i < |es| ==> WellFormed(ContentOf(es[i])))
  {
    hide EachOk, RustEachOk, RustHasMain, TotalBytes, RustTotal, NameOf, ContentOf, Encode, WellFormed;
    WireTotal(es);
    WireEachOk(es);
    WireMain(es);
  }

  lemma WireMain(es: seq<Entry>)
    requires RustNames(Wire(es)) == NamesOf(es)
    ensures RustHasMain(Wire(es)) <==> exists i :: 0 <= i < |es| && NameOf(es[i]) == MAIN
  {
    hide NameOf, ContentOf, Encode;
    assert forall i :: 0 <= i < |es| ==> Wire(es)[i].name == RustNames(Wire(es))[i] == NamesOf(es)[i] == NameOf(es[i]);
  }

  lemma SingleFile(name: Text, content: Text)
    requires MatchesPattern(name) && SameName(name, MAIN) && NUL !in content && Utf8Length(content) <= MAX_BYTES
    ensures var es := [Entry(Some(name), Some(content))];
            FilesOk(Files(es)) && TotalBytes(es) == Utf8Length(content)
  {
    hide MatchesPattern, Lower, Utf8Length;
    var es := [Entry(Some(name), Some(content))];
    NoFiles(es);
    OneFileMore(es, 0);
    assert es[..1] == es;
    assert NameOf(es[0]) == name && ContentOf(es[0]) == content;
    assert HasMain(es);
  }

  /** Every single-file project of one of the three kinds passes the web server and not the API. */
  lemma AdmittedInVain(name: Text, content: Text)
    requires MatchesPattern(name) && SameName(name, MAIN) && NUL !in content && Utf8Length(content) <= MAX_BYTES
    requires name != MAIN || content == [] || !WellFormed(content)
    ensures FilesOk(Files([Entry(Some(name), Some(content))])) && !ApiAdmits([Entry(Some(name), Some(content))])
  {
    hide MatchesPattern, Lower, FilesOk, TotalBytes, WellFormed, ApiAdmits;
    var es := [Entry(Some(name), Some(content))];
    SingleFile(name, content);
    ApiAdmitsIff(es);
    assert NameOf(es[0]) == name && ContentOf(es[0]) == content;
  }

  /** `Main.c`, an empty `main.c`, and a `main.c` holding half of a surrogate pair are such projects. */
  lemma InVainExamples()
    ensures var capital := [Entry(Some([77, 97, 105, 110, 46, 99]), Some([120]))];
            FilesOk(Files(capital)) && !ApiAdmits(capital)
    ensures var blank := [Entry(Some(MAIN), Some([]))];
            FilesOk(Files(blank)) && !ApiAdmits(blank)
    ensures var lone := [Entry(Some(MAIN), Some([0xD800]))];
            FilesOk(Files(lone)) && !ApiAdmits(lone)
  {
    hide FilesOk, ApiAdmits;
    var capital := [77, 97, 105, 110, 46, 99];
    assert SameName(capital, MAIN) && SameName(MAIN, MAIN);
    AdmittedInVain(capital, [120]);
    AdmittedInVain(MAIN, []);
    AdmittedInVain(MAIN, [0xD800]);
  }
}
