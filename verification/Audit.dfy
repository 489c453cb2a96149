/** The hash-chained log of approvals (agent/hitl_audit.go): entries, the verifier, the writer. */
module Audit {
  import opened Values

  /** Nanoseconds; 0 is Go's zero time. */
  type Timestamp = nat

  const ZERO_TIME: Timestamp := 0

  datatype Entry = Entry(
    timestamp: Timestamp, event: string, tool: string, toolCallId: string, threadId: string,
    requestId: string, iteration: int, arguments: Any, argsHash: string, decision: string,
    approved: bool, error: string, prevHash: string, hash: string)

  /** What is hashed: every field but the hash. */
  datatype Payload = Payload(
    timestamp: Timestamp, event: string, tool: string, toolCallId: string, threadId: string,
    requestId: string, iteration: int, arguments: Any, argsHash: string, decision: string,
    approved: bool, error: string, prevHash: string)

  function PayloadOf(e: Entry): Payload {
    Payload(e.timestamp, e.event, e.tool, e.toolCallId, e.threadId, e.requestId, e.iteration,
            e.arguments, e.argsHash, e.decision, e.approved, e.error, e.prevHash)
  }

  /** SHA-256 of an encoded payload, and one-line JSON for entries. */
  datatype Codec = Codec(sha: Payload -> string, print_: Entry -> string, parse: string -> Option<Entry>) {
    /** A hash is never empty, a printed entry is a line that is not blank, parsing undoes printing, and yields
        arguments that JSON can express. */
    ghost predicate Sound() {
      && (forall p :: sha(p) != "")
      && (forall e: Entry | IsJson(e.arguments) :: print_(e) != "" && parse(print_(e)) == Some(e))
      && (forall l | parse(l).Some? :: IsJson(parse(l).value.arguments))
    }

    /** Among the payloads that a log can hold; others may be printed alike. */
    ghost predicate CollisionFree() {
      forall p: Payload, q: Payload | IsJson(p.arguments) && IsJson(q.arguments) :: sha(p) == sha(q) ==> p == q
    }
  }

  /* ---------- What the verifier accepts ---------- */

  /** The entries on the lines that are not blank, in order; None if one of them is no entry. */
  function Decode(c: Codec, lines: seq<string>): Option<seq<Entry>> {
    if lines == [] then Some([])
    else
      var before, l := Decode(c, lines[..|lines| - 1]), lines[|lines| - 1];
      if l == "" then before
      else
        var e := c.parse(l);
        if before.Some? && e.Some? then Some(before.value + [e.value]) else None
  }

  function EndHash(es: seq<Entry>): string {
    if es == [] then "" else es[|es| - 1].hash
  }

  function EndTime(es: seq<Entry>): Timestamp {
    if es == [] then ZERO_TIME else es[|es| - 1].timestamp
  }

  /** An entry that carries its own hash and names the hash before it. */
  predicate Linked(c: Codec, e: Entry, prevHash: string) {
    e.prevHash == prevHash && e.hash == c.sha(PayloadOf(e))
  }

  predicate Chained(c: Codec, es: seq<Entry>) {
    es == [] ||
    var init, e := es[..|es| - 1], es[|es| - 1];
    Chained(c, init) && Linked(c, e, EndHash(init))
  }

  predicate StrictFields(e: Entry) {
    && e.event != ""
    && e.timestamp != ZERO_TIME
    && (e.event == "hitl_request" || e.event == "hitl_decision" ==>
          e.tool != "" && e.toolCallId != "" && e.threadId != "" && e.requestId != "" && e.iteration > 0)
    && (e.event == "hitl_decision" ==> e.decision != "")
  }

  /** All required fields are there and time never goes back. */
  ghost predicate Strict(es: seq<Entry>) {
    && (forall i | 0 <= i < |es| :: StrictFields(es[i]))
    && (forall i, j | 0 <= i < j < |es| :: es[i].timestamp <= es[j].timestamp)
  }

  ghost predicate Accepted(c: Codec, lines: seq<string>, strict: bool) {
    match Decode(c, lines)
    case None => false
    case Some(es) => Chained(c, es) && (strict ==> Strict(es))
  }

  lemma ChainedSnoc(c: Codec, es: seq<Entry>, e: Entry)
    ensures Chained(c, es + [e]) <==> Chained(c, es) && Linked(c, e, EndHash(es))
  {
    assert (es + [e])[..|es|] == es;
  }

  lemma StrictSnoc(es: seq<Entry>, e: Entry)
    ensures Strict(es + [e]) <==> Strict(es) && StrictFields(e) && EndTime(es) <= e.timestamp
  {
    var fs := es + [e];
    if Strict(fs) {
      assert forall i | 0 <= i < |es| :: fs[i] == es[i];
      assert fs[|es|] == e;
    }
    if Strict(es) && StrictFields(e) && EndTime(es) <= e.timestamp {
      assert forall i | 0 <= i < |fs| :: StrictFields(fs[i]);
      assert forall i, j | 0 <= i < j < |fs| :: fs[i].timestamp <= fs[j].timestamp;
    }
  }

  lemma DecodeSnoc(c: Codec, lines: seq<string>, l: string)
    ensures l == "" ==> Decode(c, lines + [l]) == Decode(c, lines)
    ensures l != "" ==>
      (Decode(c, lines + [l]) ==
       if Decode(c, lines).Some? && c.parse(l).Some?
       then Some(Decode(c, lines).value + [c.parse(l).value]) else None)
  {
    assert (lines + [l])[..|lines|] == lines;
  }

  /** What the verifier asks of one more line, given the file before it. */
  ghost predicate LineFits(c: Codec, es: seq<Entry>, l: string, strict: bool) {
    l == "" ||
    match c.parse(l)
    case None => false
    case Some(e) => Linked(c, e, EndHash(es)) && (strict ==> StrictFields(e) && EndTime(es) <= e.timestamp)
  }

  lemma AcceptedSnoc(c: Codec, lines: seq<string>, l: string, strict: bool)
    ensures Accepted(c, lines + [l], strict) <==>
      Accepted(c, lines, strict) && LineFits(c, Decode(c, lines).value, l, strict)
  {
    DecodeSnoc(c, lines, l);
    if l != "" && Decode(c, lines).Some? && c.parse(l).Some? {
      ChainedSnoc(c, Decode(c, lines).value, c.parse(l).value);
      StrictSnoc(Decode(c, lines).value, c.parse(l).value);
    }
  }

  /** Acceptance is closed under prefixes of the file. */
  lemma {:induction false} PrefixAccepted(c: Codec, lines: seq<string>, k: nat, strict: bool)
    requires k <= |lines| && Accepted(c, lines, strict)
    ensures Accepted(c, lines[..k], strict)
    decreases |lines|
  {
    if k == |lines| {
      assert lines[..k] == lines;
    } else {
      var init, l := lines[..|lines| - 1], lines[|lines| - 1];
      assert lines == init + [l];
      AcceptedSnoc(c, init, l, strict);
      PrefixAccepted(c, init, k, strict);
      assert init[..k] == lines[..k];
    }
  }

  /* ---------- Uniqueness ---------- */

  /** Entries as the lines of a file can hold them. */
  ghost predicate Storable(es: seq<Entry>) {
    forall e | e in es :: IsJson(e.arguments)
  }

  lemma {:induction false} DecodedAreStorable(c: Codec, lines: seq<string>)
    requires c.Sound() && Decode(c, lines).Some?
    ensures Storable(Decode(c, lines).value)
  {
    hide IsJson;
    if lines != [] {
      DecodedAreStorable(c, lines[..|lines| - 1]);
    }
  }

  lemma StorableParts(es: seq<Entry>)
    requires Storable(es) && es != []
    ensures Storable(es[..|es| - 1]) && IsJson(es[|es| - 1].arguments)
  {
    hide IsJson;
    assert es[|es| - 1] in es && forall e | e in es[..|es| - 1] :: e in es;
  }

  lemma SameHash(c: Codec, e: Entry, f: Entry)
    requires c.Sound() && c.CollisionFree() && IsJson(e.arguments) && IsJson(f.arguments)
    requires e.hash == c.sha(PayloadOf(e)) == c.sha(PayloadOf(f)) == f.hash
    ensures e == f
  {
    hide IsJson;
    assert PayloadOf(e).arguments == e.arguments && PayloadOf(f).arguments == f.arguments;
  }

  lemma EndHashNotEmpty(c: Codec, es: seq<Entry>)
    requires c.Sound() && Chained(c, es)
    ensures EndHash(es) == "" <==> es == []
  {
    hide IsJson;
  }

  lemma ChainParts(c: Codec, es: seq<Entry>)
    requires Chained(c, es) && es != []
    ensures Chained(c, es[..|es| - 1]) && Linked(c, es[|es| - 1], EndHash(es[..|es| - 1]))
  {
  }

  /** A chain is determined by its last hash. */
  lemma {:induction false} ChainUnique(c: Codec, es: seq<Entry>, fs: seq<Entry>)
    requires c.Sound() && c.CollisionFree() && Storable(es) && Storable(fs)
    requires Chained(c, es) && Chained(c, fs) && EndHash(es) == EndHash(fs)
    ensures es == fs
    decreases |es|
  {
    hide Storable, PayloadOf, Codec.Sound, Codec.CollisionFree, Chained;
    EndHashNotEmpty(c, es);
    EndHashNotEmpty(c, fs);
    if es != [] && fs != [] {
      var m, n := |es| - 1, |fs| - 1;
      StorableParts(es);
      StorableParts(fs);
      ChainParts(c, es);
      ChainParts(c, fs);
      SameHash(c, es[m], fs[n]);
      ChainUnique(c, es[..m], fs[..n]);
      assert es == es[..m] + [es[m]] && fs == fs[..n] + [fs[n]];
    }
  }

  /** The last hash of an accepted file determines every entry of the file. */
  lemma LastHashDeterminesFile(c: Codec, f: seq<string>, g: seq<string>, strict: bool)
    requires c.Sound() && c.CollisionFree()
    requires Accepted(c, f, strict) && Accepted(c, g, strict)
    requires EndHash(Decode(c, f).value) == EndHash(Decode(c, g).value)
    ensures Decode(c, f) == Decode(c, g)
  {
    DecodedAreStorable(c, f);
    DecodedAreStorable(c, g);
    ChainUnique(c, Decode(c, f).value, Decode(c, g).value);
  }

  /** Any rewriting of the part before a last line that is kept (edits, insertions, deletions and
      reorderings alike) is rejected, unless the entries stay exactly what they were. */
  lemma TamperingIsRejected(c: Codec, head: seq<string>, head': seq<string>, last: string)
    requires c.Sound() && c.CollisionFree()
    requires last != "" && Accepted(c, head + [last], false)
    ensures Accepted(c, head' + [last], false) <==> Decode(c, head') == Decode(c, head)
  {
    AcceptedSnoc(c, head, last, false);
    AcceptedSnoc(c, head', last, false);
    if Accepted(c, head' + [last], false) {
      LastHashDeterminesFile(c, head, head', false);
    }
  }

  /* ---------- The verifier ---------- */

  datatype Fault = BadJson | ChainMismatch | HashMismatch | NotStrict

  datatype Verdict = Intact | CannotOpen | Faulty(line: nat, fault: Fault)

  /** validateHITLAuditEntryStrict, as the source words it. */
  function ValidateStrict(e: Entry, prevTs: Timestamp): (ok: bool)
    ensures ok <==>
      && e.event != "" && e.timestamp != 0 && prevTs <= e.timestamp
      && (e.event in {"hitl_request", "hitl_decision"} ==>
            e.tool != "" && e.toolCallId != "" && e.threadId != "" && e.requestId != "" && e.iteration >= 1)
      && (e.event == "hitl_decision" ==> e.decision != "")
  {
    if e.event == "" then false
    else if e.timestamp == ZERO_TIME then false
    else if prevTs != ZERO_TIME && e.timestamp < prevTs then false
    else
      var named := e.event == "hitl_request" || e.event == "hitl_decision";
      if named && e.tool == "" then false
      else if named && e.toolCallId == "" then false
      else if named && e.threadId == "" then false
      else if named && e.requestId == "" then false
      else if named && e.iteration <= 0 then false
      else !(e.event == "hitl_decision" && e.decision == "")
  }

  /** The verdict is Intact exactly on accepted files; a fault is reported on the first line at which
      the file stops being accepted, with what is wrong there. */
  method VerifyFileChain(c: Codec, file: Option<seq<string>>, strict: bool) returns (v: Verdict)
    ensures v == CannotOpen <==> file == None
    ensures file.Some? ==> (v == Intact <==> Accepted(c, file.value, strict))
    ensures v.Faulty? ==>
      && 1 <= v.line <= |file.value|
      && Accepted(c, file.value[..v.line - 1], strict)
      && !Accepted(c, file.value[..v.line], strict)
      && var before, parsed := Decode(c, file.value[..v.line - 1]).value, c.parse(file.value[v.line - 1]);
         match v.fault
         case BadJson => parsed == None
         case ChainMismatch => parsed.Some? && parsed.value.prevHash != EndHash(before)
         case HashMismatch =>
           && parsed.Some? && parsed.value.prevHash == EndHash(before)
           && parsed.value.hash != c.sha(PayloadOf(parsed.value))
         case NotStrict => strict && parsed.Some? && Linked(c, parsed.value, EndHash(before))
  {
    hide Decode, Chained, Strict;
    if file == None {
      return CannotOpen;
    }
    var lines := file.value;
    NothingIsAccepted(c, strict);
    var prevHash, prevTs, line := "", ZERO_TIME, 0;
    while line < |lines|
      invariant 0 <= line <= |lines|
      invariant Accepted(c, lines[..line], strict)
      invariant prevHash == EndHash(Decode(c, lines[..line]).value)
      invariant strict ==> prevTs == EndTime(Decode(c, lines[..line]).value)
    {
      var text := lines[line];
      ghost var before := lines[..line];
      line := line + 1;
      assert lines[..line] == before + [text];
      DecodeSnoc(c, before, text);
      AcceptedSnoc(c, before, text, strict);
      FirstFault(c, lines, line, strict);
      if text != "" {
        var parsed := c.parse(text);
        if parsed == None {
          return Faulty(line, BadJson);
        }
        var e := parsed.value;
        if e.prevHash != prevHash {
          return Faulty(line, ChainMismatch);
        }
        var expected := c.sha(PayloadOf(Entry(
          e.timestamp, e.event, e.tool, e.toolCallId, e.threadId, e.requestId, e.iteration,
          e.arguments, e.argsHash, e.decision, e.approved, e.error, e.prevHash, "")));
        if e.hash != expected {
          return Faulty(line, HashMismatch);
        }
        if strict && !ValidateStrict(e, prevTs) {
          return Faulty(line, NotStrict);
        }
        prevHash, prevTs := e.hash, e.timestamp;
      }
    }
    assert lines[..line] == lines;
    return Intact;
  }

  lemma NothingIsAccepted(c: Codec, strict: bool)
    ensures Accepted(c, [], strict) && Decode(c, []) == Some([])
  {
  }

  lemma FirstFault(c: Codec, lines: seq<string>, k: nat, strict: bool)
    requires k <= |lines|
    ensures !Accepted(c, lines[..k], strict) ==> !Accepted(c, lines, strict)
  {
    if Accepted(c, lines, strict) {
      PrefixAccepted(c, lines, k, strict);
    }
  }

  /* ---------- The writer ---------- */

  /** What the operating system and the clock answer to one call of the writer. A file can be `readable` by
      being absent. */
  datatype LogIO = LogIO(readable: bool, now: Timestamp, write: WriteIO)

  datatype WriteIO = Writes | OpenFails | WriteFails

  /** The log file (None: absent) and what a writer remembers about it. */
  datatype LogState = LogState(file: Option<seq<string>>, loaded: bool, lastHash: string)

  function Lines(file: Option<seq<string>>): seq<string> {
    if file == None then [] else file.value
  }

  /** The hash a fresh writer takes over: that of the last physical line; None if it cannot. */
  function LoadedHash(c: Codec, file: Option<seq<string>>, io: LogIO): Option<string> {
    var lines := Lines(file);
    if !io.readable then None
    else if file == None then Some("")
    else if lines == [] || lines[|lines| - 1] == "" then Some("")
    else
      match c.parse(lines[|lines| - 1])
      case None => None
      case Some(e) => Some(e.hash)
  }

  /** An entry as it is written: stamped, linked to the hash before it, hashed. */
  function Seal(c: Codec, e: Entry, prevHash: string, now: Timestamp): Entry {
    var stamped := e.(timestamp := if e.timestamp == ZERO_TIME then now else e.timestamp, prevHash := prevHash);
    stamped.(hash := c.sha(PayloadOf(stamped)))
  }

  /** One call of LogHITLEvent; the flag says whether the entry was written. */
  function LogStep(c: Codec, s: LogState, e: Entry, io: LogIO): (LogState, bool) {
    var known := if s.loaded then Some(s.lastHash) else LoadedHash(c, s.file, io);
    var ready := s.(loaded := true);
    if known == None then (ready, false)
    else
      var ready := ready.(lastHash := known.value);
      var sealed := Seal(c, e, known.value, io.now);
      if !IsJson(e.arguments) || io.write.OpenFails? then (ready, false)
      else if io.write.WriteFails? then (ready.(file := Some(Lines(s.file))), false)
      else (ready.(file := Some(Lines(s.file) + [c.print_(sealed)]), lastHash := sealed.hash), true)
  }

  class AuditFile {
    var content: Option<seq<string>>

    constructor (content: Option<seq<string>>)
      ensures this.content == content
    {
      this.content := content;
    }
  }

  class FileHITLAuditLogger {
    const codec: Codec
    const file: AuditFile
    var loaded: bool
    var lastHash: string

    ghost function State(): LogState
      reads this, file
    {
      LogState(file.content, loaded, lastHash)
    }

    constructor (codec: Codec, file: AuditFile)
      ensures this.codec == codec && this.file == file
      ensures State() == LogState(file.content, false, "")
    {
      this.codec, this.file, this.loaded, this.lastHash := codec, file, false, "";
    }

    method LoadLastHash(io: LogIO) returns (ok: bool)
      requires !loaded ==> lastHash == ""
      modifies this
      ensures loaded
      ensures ok <==> old(loaded) || LoadedHash(codec, file.content, io).Some?
      ensures lastHash == if ok && !old(loaded) then LoadedHash(codec, file.content, io).value else old(lastHash)
    {
      if loaded {
        return true;
      }
      loaded := true;
      if !io.readable {
        return false;
      }
      if file.content == None {
        return true;
      }
      var lines := file.content.value;
      var lastLine := "";
      for i := 0 to |lines|
        invariant lastLine == if i == 0 then "" else lines[i - 1]
      {
        lastLine := lines[i];
      }
      if lastLine == "" {
        return true;
      }
      var e := codec.parse(lastLine);
      if e == None {
        return false;
      }
      lastHash := e.value.hash;
      return true;
    }

    method LogHITLEvent(entry: Entry, io: LogIO) returns (ok: bool)
      requires !loaded ==> lastHash == ""
      modifies this, file
      ensures (State(), ok) == LogStep(codec, old(State()), entry, io)
      ensures loaded
    {
      ok := LoadLastHash(io);
      if !ok {
        return;
      }
      var e := entry;
      if e.timestamp == ZERO_TIME {
        e := e.(timestamp := io.now);
      }
      e := e.(prevHash := lastHash);
      e := e.(hash := codec.sha(PayloadOf(e)));
      if !IsJson(e.arguments) || io.write == OpenFails {
        return false;
      }
      if file.content == None {
        file.content := Some([]);
      }
      if io.write == WriteFails {
        return false;
      }
      file.content := Some(file.content.value + [codec.print_(e)]);
      lastHash := e.hash;
      return true;
    }
  }

  /* ---------- Writer and verifier agree ---------- */

  /** A file whose last physical line is not blank, unless it holds no entry at all. */
  predicate EndsInEntry(c: Codec, lines: seq<string>) {
    Decode(c, lines) == Some([]) || (lines != [] && lines[|lines| - 1] != "")
  }

  /** The writer and the file are in step: what every successful or cleanly failed call keeps. */
  ghost predicate InStep(c: Codec, s: LogState) {
    && Accepted(c, Lines(s.file), false)
    && EndsInEntry(c, Lines(s.file))
    && s.lastHash == if s.loaded then EndHash(Decode(c, Lines(s.file)).value) else ""
  }

  /** The hash that a fresh writer loads is the hash the verifier ends with, exactly when no blank
      line follows the entries. */
  lemma RestartAgreement(c: Codec, lines: seq<string>, io: LogIO)
    requires c.Sound() && Accepted(c, lines, false) && io.readable
    ensures LoadedHash(c, Some(lines), io).Some?
    ensures LoadedHash(c, Some(lines), io).value == EndHash(Decode(c, lines).value) <==> EndsInEntry(c, lines)
  {
    if lines != [] {
      var init, l := lines[..|lines| - 1], lines[|lines| - 1];
      assert lines == init + [l];
      DecodeSnoc(c, init, l);
      AcceptedSnoc(c, init, l, false);
      EndHashNotEmpty(c, Decode(c, lines).value);
    }
  }

  /** One call keeps writer and file in step; the file changes by at most the sealed entry. */
  lemma LogKeepsInStep(c: Codec, s: LogState, e: Entry, io: LogIO)
    requires c.Sound() && InStep(c, s) && (s.loaded || io.readable)
    ensures InStep(c, LogStep(c, s, e, io).0)
    ensures
      var es := Decode(c, Lines(s.file)).value;
      Decode(c, Lines(LogStep(c, s, e, io).0.file)).value ==
        if LogStep(c, s, e, io).1 then es + [Seal(c, e, EndHash(es), io.now)] else es
  {
    hide LogStep, LoadedHash, Decode, Chained, Seal, IsJson, Codec.Sound;
    var lines := Lines(s.file);
    var es := Decode(c, lines).value;
    KnownHash(c, s, io);
    LogStepParts(c, s, e, io);
    if LogStep(c, s, e, io).1 {
      SealedLineFits(c, lines, e, io.now);
    }
  }

  lemma KnownHash(c: Codec, s: LogState, io: LogIO)
    requires c.Sound() && InStep(c, s) && (s.loaded || io.readable)
    ensures (if s.loaded then Some(s.lastHash) else LoadedHash(c, s.file, io)) ==
      Some(EndHash(Decode(c, Lines(s.file)).value))
  {
    hide Codec.Sound, Chained;
    if s.file.Some? && !s.loaded {
      RestartAgreement(c, Lines(s.file), io);
    }
  }

  /** A log call, once the hash before it is known. */
  lemma LogStepParts(c: Codec, s: LogState, e: Entry, io: LogIO)
    requires (if s.loaded then Some(s.lastHash) else LoadedHash(c, s.file, io)).Some?
    ensures
      var known := (if s.loaded then Some(s.lastHash) else LoadedHash(c, s.file, io)).value;
      var (s', written) := LogStep(c, s, e, io);
      var sealed := Seal(c, e, known, io.now);
      && s'.loaded && s'.lastHash == (if written then sealed.hash else known)
      && Lines(s'.file) == (if written then Lines(s.file) + [c.print_(sealed)] else Lines(s.file))
      && (written ==> IsJson(e.arguments))
  {
    hide LoadedHash, IsJson, Seal;
  }

  lemma SealedLineFits(c: Codec, lines: seq<string>, e: Entry, now: Timestamp)
    requires c.Sound() && IsJson(e.arguments) && Accepted(c, lines, false)
    ensures
      var es := Decode(c, lines).value;
      var sealed := Seal(c, e, EndHash(es), now);
      var lines' := lines + [c.print_(sealed)];
      Accepted(c, lines', false) && EndsInEntry(c, lines') && Decode(c, lines') == Some(es + [sealed])
  {
    var sealed := Seal(c, e, EndHash(Decode(c, lines).value), now);
    assert c.parse(c.print_(sealed)) == Some(sealed);
    DecodeSnoc(c, lines, c.print_(sealed));
    AcceptedSnoc(c, lines, c.print_(sealed), false);
  }

  /** Writers come and go; a history is a sequence of log calls and restarts. */
  datatype Op = Log(entry: Entry, io: LogIO) | Restart

  function Restarted(s: LogState): LogState {
    s.(loaded := false, lastHash := "")
  }

  function RunOps(c: Codec, s: LogState, ops: seq<Op>): LogState {
    if ops == [] then s
    else
      var t := RunOps(c, s, ops[..|ops| - 1]);
      match ops[|ops| - 1]
      case Log(e, io) => LogStep(c, t, e, io).0
      case Restart => Restarted(t)
  }

  /** Every writer that comes to a file can read it, or finds that it is not there. */
  predicate LoadsSucceed(loaded: bool, ops: seq<Op>) {
    forall i | 0 <= i < |ops| && ops[i].Log? && !LoadedAfter(loaded, ops[..i]) :: ops[i].io.readable
  }

  function LoadedAfter(loaded: bool, ops: seq<Op>): bool {
    if ops == [] then loaded else ops[|ops| - 1].Log?
  }

  lemma {:induction false} RunOpsLoaded(c: Codec, s: LogState, ops: seq<Op>)
    ensures RunOps(c, s, ops).loaded == LoadedAfter(s.loaded, ops)
  {
  }

  lemma {:induction false} LoadsSucceedBefore(loaded: bool, ops: seq<Op>)
    requires LoadsSucceed(loaded, ops) && ops != []
    ensures
      var n := |ops| - 1;
      && LoadsSucceed(loaded, ops[..n])
      && (ops[n].Log? ==> LoadedAfter(loaded, ops[..n]) || ops[n].io.readable)
  {
    assert forall i | 0 <= i < |ops| - 1 :: ops[..|ops| - 1][..i] == ops[..i];
  }

  /** Any interleaving of log calls (written or cleanly failed) and restarts keeps the file accepted. */
  lemma {:induction false} HistoryAccepted(c: Codec, s: LogState, ops: seq<Op>)
    requires c.Sound() && InStep(c, s) && LoadsSucceed(s.loaded, ops)
    ensures InStep(c, RunOps(c, s, ops))
  {
    hide InStep, LogStep, LoadsSucceed;
    if ops != [] {
      var n := |ops| - 1;
      LoadsSucceedBefore(s.loaded, ops);
      HistoryAccepted(c, s, ops[..n]);
      RunOpsLoaded(c, s, ops[..n]);
      match ops[n]
      case Log(e, io) => LogKeepsInStep(c, RunOps(c, s, ops[..n]), e, io);
      case Restart => RestartKeepsInStep(c, RunOps(c, s, ops[..n]));
    }
  }

  lemma {:induction false} RestartKeepsInStep(c: Codec, s: LogState)
    requires InStep(c, s)
    ensures InStep(c, Restarted(s))
  {
  }

  lemma FirstLoadFails(c: Codec, file: Option<seq<string>>, e: Entry, io: LogIO)
    requires !io.readable
    ensures LogStep(c, LogState(file, false, ""), e, io) == (LogState(file, true, ""), false)
  {
  }

  lemma SealedIsLinked(c: Codec, e: Entry, prevHash: string, now: Timestamp)
    requires c.Sound() && IsJson(e.arguments)
    ensures
      var sealed := Seal(c, e, prevHash, now);
      && c.print_(sealed) != "" && c.parse(c.print_(sealed)) == Some(sealed)
      && forall h :: Linked(c, sealed, h) <==> h == prevHash
  {
    hide IsJson;
    var sealed := Seal(c, e, prevHash, now);
    assert sealed.arguments == e.arguments;
  }

  /** On any accepted file: the next entry of a fresh writer keeps it accepted exactly when no blank
      line follows the entries. */
  lemma FreshWriterContinues(c: Codec, lines: seq<string>, e: Entry, io: LogIO)
    requires c.Sound() && Accepted(c, lines, false) && io.readable
    requires LogStep(c, LogState(Some(lines), false, ""), e, io).1
    ensures Accepted(c, Lines(LogStep(c, LogState(Some(lines), false, ""), e, io).0.file), false)
            <==> EndsInEntry(c, lines)
  {
    hide Decode, Chained, Seal, IsJson, Codec.Sound, LogStep, LoadedHash, EndsInEntry;
    RestartAgreement(c, lines, io);
    var s, known := LogState(Some(lines), false, ""), LoadedHash(c, Some(lines), io).value;
    LogStepParts(c, s, e, io);
    SealedIsLinked(c, e, known, io.now);
    AcceptedSnoc(c, lines, c.print_(Seal(c, e, known, io.now)), false);
  }

  /** For instance: one entry and a blank line. The verifier takes the file; the next entry of a fresh writer
      breaks it. */
  lemma {:induction false} BlankLineBreaksChain(c: Codec, first: Entry, e: Entry, now: Timestamp, io: LogIO)
    requires c.Sound() && IsJson(first.arguments) && io.readable && io.write.Writes? && IsJson(e.arguments)
    ensures
      var lines := [c.print_(Seal(c, first, "", now)), ""];
      && Accepted(c, lines, false)
      && LogStep(c, LogState(Some(lines), false, ""), e, io).1
      && !Accepted(c, Lines(LogStep(c, LogState(Some(lines), false, ""), e, io).0.file), false)
  {
    var line := c.print_(Seal(c, first, "", now));
    var lines := [line, ""];
    assert Decode(c, []) == Some([]) && Accepted(c, [], false);
    SealedLineFits(c, [], first, now);
    assert [] + [line] == [line] && [line] + [""] == lines;
    AcceptedSnoc(c, [line], "", false);
    DecodeSnoc(c, [line], "");
    FreshWriterContinues(c, lines, e, io);
  }

  /** A first load that fails is not retried: the next entry starts a new chain, which the verifier
      takes exactly when the file held no entry. */
  lemma FailedLoadBreaksChain(c: Codec, lines: seq<string>, e: Entry, io: LogIO, e': Entry, io': LogIO)
    requires c.Sound() && Accepted(c, lines, false) && !io.readable
    ensures
      var s := LogStep(c, LogState(Some(lines), false, ""), e, io).0;
      s.file == Some(lines) &&
      (LogStep(c, s, e', io').1 ==>
         (Accepted(c, Lines(LogStep(c, s, e', io').0.file), false) <==> Decode(c, lines) == Some([])))
  {
    hide Decode, Chained, Seal, IsJson, Codec.Sound, LogStep;
    var sealed := Seal(c, e', "", io'.now);
    FirstLoadFails(c, Some(lines), e, io);
    EndHashNotEmpty(c, Decode(c, lines).value);
    AcceptedSnoc(c, lines, c.print_(sealed), false);
    var s := LogStep(c, LogState(Some(lines), false, ""), e, io).0;
    LogStepParts(c, s, e', io');
    if LogStep(c, s, e', io').1 {
      SealedIsLinked(c, e', "", io'.now);
    }
  }
}
