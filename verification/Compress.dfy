/**
 The gzip writer inside the caching writer inside the connection: what a
 handler's calls deliver, and what is kept of it.
 */
module Compress {
  import opened Base
  import opened Strings

  const MIN_BYTES := 1024
  const MAX_BODY := 8 * 1024 * 1024

  /** What the compressor was given. */
  datatype Chunk = Data(b: string) | Sync

  /** gzip as a given encoder and decoder. */
  datatype Codec = Codec(enc: seq<Chunk> -> string, dec: string -> Option<string>)

  function Plain(cs: seq<Chunk>): string {
    if cs == [] then ""
    else Plain(cs[..|cs| - 1]) + match cs[|cs| - 1] { case Data(b) => b case Sync => "" }
  }

  /** Decompressing undoes compressing, wherever the stream was flushed. */
  ghost predicate Undoes(c: Codec) {
    forall cs :: c.dec(c.enc(cs)) == Some(Plain(cs))
  }

  /** A status line and the headers sent with it. */
  datatype Head = Head(status: int, contentType: string, encoding: string)

  /**
   The three writers together. Connection: the header map, the heads sent, the
   body bytes. Caching writer: `kept*` and `tooBig`. Gzip writer: the rest.
   */
  datatype State = State(
    contentType: string, encoding: string, sent: seq<Head>, body: string,
    keptStatus: int, kept: string, tooBig: bool,
    status: int, pending: string, decided: bool, on: bool, chunks: seq<Chunk>)

  const START := State("", "", [], "", 0, "", false, 0, "", false, false, [])

  /** What a handler does. */
  datatype Op = SetType(ct: string) | SetEncoding(enc: string) | WriteHeader(status: int) | Write(b: string) | Flush

  predicate Compressible(contentType: string) {
    var ct := ToLower(TrimSpace(UpTo(contentType, ';')));
    || ct == "application/json" || ct == "application/javascript" || ct == "image/svg+xml"
    || (|ct| >= 5 && ct[..5] == "text/" && ct != "text/event-stream")
  }

  /** `m` is the media type of a header: what stands before any parameters, trimmed, in small letters. */
  ghost predicate Media(contentType: string, m: string) {
    exists piece, t :: Before(contentType, piece) && Trimmed(piece, t) && Lowered(t, m)
  }

  predicate Before(contentType: string, piece: string) {
    piece <= contentType && ';' !in piece && (|piece| < |contentType| ==> contentType[|piece|] == ';')
  }

  /** The types worth compressing: JSON, scripts, SVG, and text other than an event stream. */
  ghost predicate WorthZipping(contentType: string) {
    exists m :: Media(contentType, m)
                && (m in {"application/json", "application/javascript", "image/svg+xml"} || ("text/" <= m && m != "text/event-stream"))
  }

  lemma CompressibleIs(contentType: string)
    ensures Compressible(contentType) <==> WorthZipping(contentType)
  {
    var piece := UpTo(contentType, ';');
    UpToIs(contentType, ';');
    TrimSpaceTrims(piece);
    ToLowerLowers(TrimSpace(piece));
    var m := ToLower(TrimSpace(piece));
    assert Media(contentType, m);
    forall k | Media(contentType, k) ensures k == m {
      var q, t :| Before(contentType, q) && Trimmed(q, t) && Lowered(t, k);
      BeforeOnce(contentType, piece, q);
      TrimmedOnce(piece, TrimSpace(piece), t);
      LoweredOnce(t, k, m);
    }
  }

  lemma BeforeOnce(s: string, p: string, q: string)
    requires Before(s, p) && Before(s, q)
    ensures p == q
  {
  }

  // The connection: net/http sends one head, and no body with a status that has none.

  predicate NoBody(status: int) { status == 204 || status == 304 }

  /** The head goes out with the headers as they are now; a second one is refused. */
  function ConnHeader(s: State, status: int): State {
    if s.sent == [] then s.(sent := [Head(status, s.contentType, s.encoding)]) else s
  }

  function ConnWrite(s: State, b: string): State {
    var s1 := ConnHeader(s, 200);
    if NoBody(s1.sent[0].status) then s1 else s1.(body := s1.body + b)
  }

  // The caching writer.

  function KeepHeader(s: State, status: int): State {
    ConnHeader(s.(keptStatus := status), status)
  }

  function Copied(s: State, b: string): State {
    var over := |s.kept| + |b| > MAX_BODY;
    s.(keptStatus := if s.keptStatus == 0 then 200 else s.keptStatus,
       tooBig := s.tooBig || over,
       kept := if s.tooBig then s.kept else if over then "" else s.kept + b)
  }

  function KeepBytes(s: State, b: string): State {
    ConnWrite(Copied(s, b), b)
  }

  function KeepFlush(s: State): State {
    ConnHeader(s.(tooBig := true, kept := ""), 200)
  }

  // The gzip writer.

  /** The first half of `commit`: settle the encoding and send the head. */
  function Announced(s: State, mayCompress: bool): State {
    var on := mayCompress && s.encoding == "" && Compressible(s.contentType);
    var status := if s.status == 0 then 200 else s.status;
    KeepHeader(s.(decided := true, on := on, encoding := if on then "gzip" else s.encoding, status := status), status)
  }

  /** `commit`: the head, then what was held back. */
  function Commit(s: State, mayCompress: bool): State {
    if s.decided then s
    else
      var s1 := Announced(s, mayCompress);
      if s.pending == "" then s1
      else if s1.on then s1.(chunks := s1.chunks + [Data(s.pending)], pending := "")
      else KeepBytes(s1, s.pending).(pending := "")
  }

  function GzHeader(s: State, status: int): State {
    if s.status != 0 then s
    else
      var s1 := s.(status := status);
      if status < 200 || NoBody(status) then KeepHeader(s1.(decided := true, on := false), status) else s1
  }

  function GzWrite(s: State, b: string): State {
    var s1 := if s.status == 0 then GzHeader(s, 200) else s;
    if s1.decided then
      (if s1.on then s1.(chunks := s1.chunks + [Data(b)]) else KeepBytes(s1, b))
    else
      var s2 := s1.(pending := s1.pending + b);
      if |s2.pending| >= MIN_BYTES then Commit(s2, true) else s2
  }

  function GzFlush(s: State): State {
    var s1 := Commit(s, true);
    KeepFlush(if s1.on then s1.(chunks := s1.chunks + [Sync]) else s1)
  }

  /** `close`; the compressor's bytes reach the connection by the time it is closed. */
  function Close(c: Codec, s: State): State {
    var s1 := Commit(s, false);
    if s1.on then KeepBytes(s1, c.enc(s1.chunks)) else s1
  }

  function Step(s: State, op: Op): State {
    match op
    case SetType(ct) => s.(contentType := ct)
    case SetEncoding(enc) => s.(encoding := enc)
    case WriteHeader(status) => GzHeader(s, status)
    case Write(b) => GzWrite(s, b)
    case Flush => GzFlush(s)
  }

  function Run(ops: seq<Op>): State {
    if ops == [] then START else Step(Run(ops[..|ops| - 1]), ops[|ops| - 1])
  }

  function Served(c: Codec, ops: seq<Op>): State {
    Close(c, Run(ops))
  }

  // What the handler said.

  function Written(ops: seq<Op>): string {
    if ops == [] then ""
    else
      var last := ops[|ops| - 1];
      Written(ops[..|ops| - 1]) + if last.Write? then last.b else ""
  }

  /** The status of the handler's first call that implies one, 0 when none does. */
  function FirstStatus(ops: seq<Op>): int {
    if ops == [] then 0
    else
      var before := FirstStatus(ops[..|ops| - 1]);
      match ops[|ops| - 1]
      case WriteHeader(st) => if before == 0 then st else before
      case Write(_) => if before == 0 then 200 else before
      case Flush => if before == 0 then 200 else before
      case _ => before
  }

  /** Every status a handler names is a final one. */
  predicate Statuses(ops: seq<Op>) {
    forall i :: 0 <= i < |ops| && ops[i].WriteHeader? ==> 200 <= ops[i].status <= 999
  }

  predicate Flushes(ops: seq<Op>) {
    exists i :: 0 <= i < |ops| && ops[i].Flush?
  }

  lemma FlushesMore(front: seq<Op>, op: Op)
    ensures Flushes(front + [op]) <==> Flushes(front) || op.Flush?
  {
    var ops := front + [op];
    assert ops[|front|] == op;
    if Flushes(front) {
      var i :| 0 <= i < |front| && front[i].Flush?;
      assert ops[i].Flush?;
    }
  }

  /** The status the handler's calls come to. */
  function FinalStatus(ops: seq<Op>): int { if FirstStatus(ops) == 0 then 200 else FirstStatus(ops) }

  /** What a body amounts to under a status. */
  function BodyUnder(status: int, written: string): string { if NoBody(status) then "" else written }

  // The invariant of a run.

  ghost predicate Undecided(s: State, written: string) {
    && s.pending == written && s.body == "" && s.sent == [] && s.chunks == [] && s.kept == "" && !s.on
    && |s.pending| < MIN_BYTES && s.keptStatus == 0 && !s.tooBig && !NoBody(s.status) && (s.status == 0 ==> s.pending == "")
  }

  ghost predicate Zipping(s: State, written: string, flushed: bool) {
    && |s.sent| == 1 && s.sent[0].encoding == "gzip"
    && s.body == "" && s.kept == "" && Plain(s.chunks) == written && !NoBody(s.status) && (s.tooBig <==> flushed)
  }

  ghost predicate Passing(s: State, written: string, flushed: bool) {
    && s.body == BodyUnder(s.status, written) && s.chunks == []
    && (s.tooBig <==> flushed || |written| > MAX_BODY) && s.kept == if s.tooBig then "" else written
  }

  ghost predicate Decided(s: State, written: string, flushed: bool) {
    && |s.sent| == 1 && s.sent[0].status == s.keptStatus == s.status >= 200 && s.pending == ""
    && (if s.on then Zipping(s, written, flushed) else Passing(s, written, flushed))
  }

  ghost predicate Ok(s: State, written: string, status: int, flushed: bool) {
    s.status == status && (status == 0 || status >= 200)
    && if s.decided then Decided(s, written, flushed) else Undecided(s, written) && !flushed
  }

  lemma PlainMore(cs: seq<Chunk>, c: Chunk)
    ensures Plain(cs + [c]) == Plain(cs) + match c { case Data(b) => b case Sync => "" }
  {
    assert (cs + [c])[..|cs|] == cs;
  }

  lemma CommitDecides(s: State, may: bool, written: string)
    requires !s.decided && s.pending == written && s.body == "" && s.sent == [] && s.chunks == [] && s.kept == "" && !s.on
    requires s.keptStatus == 0 && !s.tooBig && !NoBody(s.status) && (s.status == 0 || s.status >= 200)
    ensures var t := Commit(s, may);
      t.decided && Decided(t, written, false) && t.status == (if s.status == 0 then 200 else s.status)
  {
    PlainMore([], Data(s.pending));
    assert [] + [Data(s.pending)] == [Data(s.pending)];
    assert "" + written == written;
  }

  lemma CommitKeepsOk(s: State, may: bool, written: string, flushed: bool)
    requires Ok(s, written, s.status, flushed)
    ensures var t := Commit(s, may);
      t.decided && Ok(t, written, if s.status == 0 then 200 else s.status, flushed)
  {
    if !s.decided { CommitDecides(s, may, written); }
  }

  lemma PassKeeps(s: State, b: string, written: string, flushed: bool)
    requires s.decided && !s.on && Decided(s, written, flushed)
    ensures Decided(KeepBytes(s, b), written + b, flushed)
  {
  }

  lemma WriteKeepsOk(s: State, b: string, written: string, flushed: bool)
    requires Ok(s, written, s.status, flushed)
    ensures Ok(GzWrite(s, b), written + b, if s.status == 0 then 200 else s.status, flushed)
  {
    var s1 := if s.status == 0 then GzHeader(s, 200) else s;
    if s1.decided {
      if s1.on { PlainMore(s1.chunks, Data(b)); } else { PassKeeps(s1, b, written, flushed); }
    } else {
      var s2 := s1.(pending := s1.pending + b);
      if |s2.pending| >= MIN_BYTES { CommitDecides(s2, true, written + b); }
    }
  }

  lemma FlushKeepsOk(s: State, written: string, flushed: bool)
    requires Ok(s, written, s.status, flushed)
    ensures Ok(GzFlush(s), written, if s.status == 0 then 200 else s.status, true)
  {
    CommitKeepsOk(s, true, written, flushed);
    PlainMore(Commit(s, true).chunks, Sync);
  }

  lemma {:induction false} RunIsOk(ops: seq<Op>)
    requires Statuses(ops)
    ensures Ok(Run(ops), Written(ops), FirstStatus(ops), Flushes(ops))
  {
    if ops != [] {
      var front, op := ops[..|ops| - 1], ops[|ops| - 1];
      RunIsOk(front);
      assert ops == front + [op];
      FlushesMore(front, op);
      match op
      case Write(b) => WriteKeepsOk(Run(front), b, Written(front), Flushes(front));
      case Flush => FlushKeepsOk(Run(front), Written(front), Flushes(front));
      case _ =>
    }
  }

  lemma ClosedIsOk(ops: seq<Op>)
    requires Statuses(ops)
    ensures var t := Commit(Run(ops), false); t.decided && Ok(t, Written(ops), FinalStatus(ops), Flushes(ops))
  {
    RunIsOk(ops);
    CommitKeepsOk(Run(ops), false, Written(ops), Flushes(ops));
  }

  /**
   Byte fidelity: whatever a handler did, one head is sent, carrying its first
   status (200 when it gave none), and the delivered body is what it wrote, or
   decompresses to it when the head says gzip; a status without a body has none.
   */
  lemma DeliversWhatWasWritten(c: Codec, ops: seq<Op>)
    requires Undoes(c) && Statuses(ops)
    ensures var s := Served(c, ops);
      && |s.sent| == 1 && s.sent[0].status == FinalStatus(ops)
      && (s.on ==> s.sent[0].encoding == "gzip" && !NoBody(FinalStatus(ops)) && c.dec(s.body) == Some(Written(ops)))
      && (!s.on ==> s.body == BodyUnder(FinalStatus(ops), Written(ops)))
  {
    ClosedIsOk(ops);
    var s1 := Commit(Run(ops), false);
    assert c.dec(c.enc(s1.chunks)) == Some(Plain(s1.chunks));
    assert "" + c.enc(s1.chunks) == c.enc(s1.chunks);
  }

  /** `store`'s test. */
  predicate Storable(s: State) {
    s.keptStatus == 200 && !s.tooBig && s.kept != ""
  }

  /** What is stored is exactly the body that was delivered, under the status it was delivered with. */
  lemma StoresWhatWasDelivered(c: Codec, ops: seq<Op>)
    requires Undoes(c) && Statuses(ops)
    ensures var s := Served(c, ops);
      && |s.sent| == 1
      && (Storable(s) ==> s.kept == s.body && s.sent[0].status == 200 && |s.kept| <= MAX_BODY)
      && (!Storable(s) ==> s.tooBig || s.sent[0].status != 200 || s.body == "")
  {
    ClosedIsOk(ops);
    assert "" + c.enc(Commit(Run(ops), false).chunks) == c.enc(Commit(Run(ops), false).chunks);
  }

  /** And it is stored exactly when the first status is 200, nothing flushed, and what was delivered is neither empty nor over the cap. */
  lemma StoredExactlyWhen(c: Codec, ops: seq<Op>)
    requires Undoes(c) && Statuses(ops)
    ensures var s := Served(c, ops);
      Storable(s) <==> FinalStatus(ops) == 200 && !Flushes(ops) && 0 < |s.body| <= MAX_BODY
  {
    ClosedIsOk(ops);
    assert "" + c.enc(Commit(Run(ops), false).chunks) == c.enc(Commit(Run(ops), false).chunks);
  }

  /** A response that flushed, or outgrew the cap, is never stored. */
  lemma FlushedIsNeverStored(c: Codec, ops: seq<Op>)
    requires Undoes(c) && Statuses(ops)
    ensures Flushes(ops) || |Served(c, ops).body| > MAX_BODY ==> !Storable(Served(c, ops)) && Served(c, ops).kept == ""
  {
    ClosedIsOk(ops);
    StoredExactlyWhen(c, ops);
  }

  // Where the head goes out, read off the calls alone.

  predicate Sends(op: Op) { op.WriteHeader? || op.Write? || op.Flush? }

  /** Whether a call after `front` sends the head: through the gzip writer, or to the caching writer itself. */
  predicate Commits(zip: bool, front: seq<Op>, op: Op) {
    if zip then
      || op.Flush?
      || (op.Write? && |Written(front)| + |op.b| >= MIN_BYTES)
      || (op.WriteHeader? && FirstStatus(front) == 0 && NoBody(op.status))
    else Sends(op)
  }

  /** How many calls it takes to send the head, all of them when none does. */
  function CommitPoint(zip: bool, ops: seq<Op>): (n: nat)
    ensures n <= |ops|
  {
    if ops == [] then 0
    else
      var front := ops[..|ops| - 1];
      if Committed(zip, front) then CommitPoint(zip, front) else |ops|
  }

  predicate Committed(zip: bool, ops: seq<Op>) {
    ops != [] && (Committed(zip, ops[..|ops| - 1]) || Commits(zip, ops[..|ops| - 1], ops[|ops| - 1]))
  }

  /** The calls up to the one that sends the head, and those after it. */
  function UpToHead(zip: bool, ops: seq<Op>): seq<Op> { ops[..CommitPoint(zip, ops)] }
  function AfterHead(zip: bool, ops: seq<Op>): seq<Op> { ops[CommitPoint(zip, ops)..] }

  /** The value the last of the calls to set the content type leaves. */
  function LastType(ops: seq<Op>): Option<string> {
    if ops == [] then None
    else match ops[|ops| - 1] case SetType(ct) => Some(ct) case _ => LastType(ops[..|ops| - 1])
  }

  function LastEncoding(ops: seq<Op>): Option<string> {
    if ops == [] then None
    else match ops[|ops| - 1] case SetEncoding(enc) => Some(enc) case _ => LastEncoding(ops[..|ops| - 1])
  }

  function Else(o: Option<string>, v: string): string { if o.Some? then o.value else v }

  /** Whether the call that sends the head turns compression on. */
  predicate Zips(ops: seq<Op>) {
    var pre := UpToHead(true, ops);
    Committed(true, ops) && pre != [] && !pre[|pre| - 1].WriteHeader? && Else(LastEncoding(pre), "") == "" && Compressible(Else(LastType(pre), ""))
  }

  /** The headers the calls come to where the head goes out. */
  function SentType(zip: bool, ops: seq<Op>): string { Else(LastType(UpToHead(zip, ops)), "") }

  function SentEncoding(zip: bool, ops: seq<Op>): string {
    if zip && Zips(ops) then "gzip" else Else(LastEncoding(UpToHead(zip, ops)), "")
  }

  lemma HeadMore(zip: bool, front: seq<Op>, op: Op)
    ensures var ops := front + [op];
      && ops[..|ops| - 1] == front
      && Committed(zip, ops) == (Committed(zip, front) || Commits(zip, front, op))
      && (Committed(zip, front) ==> UpToHead(zip, ops) == UpToHead(zip, front) && AfterHead(zip, ops) == AfterHead(zip, front) + [op])
      && (!Committed(zip, front) ==> UpToHead(zip, ops) == ops && AfterHead(zip, ops) == [])
  {
    assert (front + [op])[..|front|] == front;
  }

  lemma LastMore(front: seq<Op>, op: Op)
    ensures LastType(front + [op]) == if op.SetType? then Some(op.ct) else LastType(front)
    ensures LastEncoding(front + [op]) == if op.SetEncoding? then Some(op.enc) else LastEncoding(front)
  {
    assert (front + [op])[..|front|] == front;
  }

  /** The header map and the head, as the calls have them. */
  ghost predicate HeadersAre(zip: bool, s: State, ops: seq<Op>) {
    && (s.sent != [] <==> Committed(zip, ops))
    && (s.sent != [] ==> s.sent[0].contentType == SentType(zip, ops) && s.sent[0].encoding == SentEncoding(zip, ops))
    && s.contentType == Else(LastType(AfterHead(zip, ops)), SentType(zip, ops))
    && s.encoding == Else(LastEncoding(AfterHead(zip, ops)), SentEncoding(zip, ops))
  }

  lemma {:induction false} UncommittedSendsAll(zip: bool, ops: seq<Op>)
    requires !Committed(zip, ops)
    ensures UpToHead(zip, ops) == ops && AfterHead(zip, ops) == []
  {
  }

  /** The header map after a call that changes it as a handler does. */
  predicate Sets(s: State, t: State, op: Op) {
    && t.contentType == (if op.SetType? then op.ct else s.contentType)
    && t.encoding == (if op.SetEncoding? then op.enc else s.encoding)
  }

  /** A call after the head has gone out only sets headers. */
  lemma LateHeaders(zip: bool, s: State, t: State, op: Op, front: seq<Op>)
    requires HeadersAre(zip, s, front) && Committed(zip, front) && t.sent == s.sent && Sets(s, t, op)
    ensures HeadersAre(zip, t, front + [op])
  {
    HeadMore(zip, front, op);
    LastMore(AfterHead(zip, front), op);
    assert Zips(front + [op]) == Zips(front) || !zip;
  }

  lemma LateStep(s: State, op: Op)
    requires s.decided && s.status != 0 && s.sent != []
    ensures Step(s, op).sent == s.sent && Sets(s, Step(s, op), op)
  {
  }

  /** The calls read so far when the next one may send the head. */
  lemma EarlyCalls(zip: bool, front: seq<Op>, op: Op)
    requires !Committed(zip, front)
    ensures var ops := front + [op];
      && Committed(zip, ops) == Commits(zip, front, op) && AfterHead(zip, ops) == []
      && SentType(zip, ops) == Else(LastType(ops), "")
      && SentEncoding(zip, ops) == (
          if zip && Commits(zip, front, op) && !op.WriteHeader?
             && Else(LastEncoding(ops), "") == "" && Compressible(Else(LastType(ops), ""))
          then "gzip" else Else(LastEncoding(ops), ""))
      && SentType(zip, front) == Else(LastType(front), "") && SentEncoding(zip, front) == Else(LastEncoding(front), "")
      && AfterHead(zip, front) == []
  {
    HeadMore(zip, front, op);
    UncommittedSendsAll(zip, front);
    assert (front + [op])[|front|] == op;
  }

  lemma CommitHeads(s: State, may: bool)
    requires !s.decided && s.sent == []
    ensures var t := Commit(s, may);
      && t.contentType == s.contentType
      && t.encoding == (if may && s.encoding == "" && Compressible(s.contentType) then "gzip" else s.encoding)
      && |t.sent| == 1 && t.sent[0].contentType == t.contentType && t.sent[0].encoding == t.encoding
  {
  }

  /** Which call sends the head, and what of the header map it carries. */
  lemma HeadGoesOut(s: State, op: Op)
    requires !s.decided && s.sent == [] && Sends(op) && (op.WriteHeader? ==> op.status >= 200)
    ensures
      var t, goes := Step(s, op), op.Flush? || (op.Write? && |s.pending| + |op.b| >= MIN_BYTES)
                                  || (op.WriteHeader? && s.status == 0 && NoBody(op.status));
      && t.contentType == s.contentType
      && t.encoding == (if goes && !op.WriteHeader? && s.encoding == "" && Compressible(s.contentType) then "gzip" else s.encoding)
      && (if goes then |t.sent| == 1 && t.sent[0].contentType == t.contentType && t.sent[0].encoding == t.encoding else t.sent == [])
  {
    match op
    case WriteHeader(st) =>
    case Write(b) =>
      var s1 := if s.status == 0 then GzHeader(s, 200) else s;
      CommitHeads(s1.(pending := s1.pending + b), true);
    case Flush => CommitHeads(s, true);
  }

  /** A call before it. */
  lemma EarlyStep(s: State, op: Op, front: seq<Op>)
    requires op.WriteHeader? ==> op.status >= 200
    requires HeadersAre(true, s, front) && !Committed(true, front) && !s.decided && s.status == FirstStatus(front) && s.pending == Written(front)
    ensures HeadersAre(true, Step(s, op), front + [op])
  {
    EarlyCalls(true, front, op);
    LastMore(front, op);
    if Sends(op) { HeadGoesOut(s, op); }
  }

  lemma {:induction false} HeadersFollowTheCalls(ops: seq<Op>)
    requires Statuses(ops)
    ensures HeadersAre(true, Run(ops), ops) && (Run(ops).decided <==> Committed(true, ops))
  {
    RunIsOk(ops);
    if ops != [] {
      var front, op := ops[..|ops| - 1], ops[|ops| - 1];
      assert ops == front + [op];
      HeadersFollowTheCalls(front);
      RunIsOk(front);
      if Committed(true, front) {
        LateStep(Run(front), op);
        LateHeaders(true, Run(front), Run(ops), op, front);
      } else {
        EarlyStep(Run(front), op, front);
      }
    }
  }

  // Which responses are compressed, on the calls alone.

  predicate SetsEncoding(ops: seq<Op>) {
    exists i :: 0 <= i < |ops| && ops[i].SetEncoding?
  }

  /** Enough was written, or something flushed, under a status that has a body. */
  predicate Fills(ops: seq<Op>) {
    !NoBody(FirstStatus(ops)) && (Flushes(ops) || |Written(ops)| >= 1024)
  }

  /** A status is known once anything was written or flushed. */
  lemma {:induction false} WritingGivesStatus(ops: seq<Op>)
    requires Statuses(ops)
    ensures Flushes(ops) || Written(ops) != "" ==> FirstStatus(ops) != 0
  {
    if ops != [] {
      var front, op := ops[..|ops| - 1], ops[|ops| - 1];
      WritingGivesStatus(front);
      assert ops == front + [op];
      FlushesMore(front, op);
    }
  }

  /** The head went out by a call that is no status line exactly when the calls fill the response. */
  lemma {:induction false} CommittedByTotals(ops: seq<Op>)
    requires Statuses(ops)
    ensures Committed(true, ops) <==> NoBody(FirstStatus(ops)) || Fills(ops)
    ensures Committed(true, ops) ==>
      UpToHead(true, ops) != [] && (UpToHead(true, ops)[|UpToHead(true, ops)| - 1].WriteHeader? <==> NoBody(FirstStatus(ops)))
  {
    if ops != [] {
      var front, op := ops[..|ops| - 1], ops[|ops| - 1];
      CommittedByTotals(front);
      WritingGivesStatus(front);
      assert ops == front + [op] && ops[|front|] == op;
      FlushesMore(front, op);
      HeadMore(true, front, op);
    }
  }

  lemma {:induction false} NoEncodingSet(ops: seq<Op>, n: nat)
    requires !SetsEncoding(ops) && n <= |ops|
    ensures LastEncoding(ops[..n]).None?
  {
    if n > 0 {
      NoEncodingSet(ops, n - 1);
      assert ops[..n][..n - 1] == ops[..n - 1];
    }
  }

  /**
   A handler that sets no encoding of its own is compressed exactly when it
   fills the response and the type that is sent is worth it.
   */
  lemma ZippedExactlyWhen(c: Codec, ops: seq<Op>)
    requires Statuses(ops) && !SetsEncoding(ops)
    ensures var s := Served(c, ops);
      |s.sent| == 1 && (s.sent[0].encoding == "gzip" <==> Fills(ops) && WorthZipping(SentType(true, ops)))
  {
    ClosedIsOk(ops);
    HeadersFollowTheCalls(ops);
    CommittedByTotals(ops);
    NoEncodingSet(ops, CommitPoint(true, ops));
    NoEncodingSet(ops, |ops|);
    assert ops[..|ops|] == ops;
    CompressibleIs(SentType(true, ops));
    if !Committed(true, ops) { UncommittedSendsAll(true, ops); }
  }

  predicate SetsType(ops: seq<Op>) {
    exists i :: 0 <= i < |ops| && ops[i].SetType?
  }

  lemma {:induction false} TypeSetFirst(ct: string, rest: seq<Op>, n: nat)
    requires !SetsType(rest) && 1 <= n <= |rest| + 1
    ensures LastType(([SetType(ct)] + rest)[..n]) == Some(ct)
  {
    var ops := [SetType(ct)] + rest;
    if n > 1 {
      TypeSetFirst(ct, rest, n - 1);
      assert ops[..n][..n - 1] == ops[..n - 1] && ops[..n][n - 1] == rest[n - 2];
    }
  }

  /** A handler that names a type first and then answers at length is compressed exactly when that type is worth it. */
  lemma TypeDecides(c: Codec, ct: string, rest: seq<Op>)
    requires Statuses(rest) && !SetsType(rest) && !SetsEncoding(rest)
    requires |Written(rest)| >= 1024 && !NoBody(FirstStatus(rest))
    ensures var s := Served(c, [SetType(ct)] + rest); |s.sent| == 1 && (s.sent[0].encoding == "gzip" <==> WorthZipping(ct))
  {
    var ops := [SetType(ct)] + rest;
    assert forall i :: 0 < i < |ops| ==> ops[i] == rest[i - 1];
    SettingFirst(SetType(ct), rest);
    CommittedByTotals(ops);
    TypeSetFirst(ct, rest, CommitPoint(true, ops));
    ZippedExactlyWhen(c, ops);
  }

  lemma {:induction false} SettingFirst(op: Op, rest: seq<Op>)
    requires op.SetType? || op.SetEncoding?
    ensures Written([op] + rest) == Written(rest) && FirstStatus([op] + rest) == FirstStatus(rest)
  {
    var ops := [op] + rest;
    if rest != [] {
      SettingFirst(op, rest[..|rest| - 1]);
      assert ops[..|ops| - 1] == [op] + rest[..|rest| - 1];
    } else {
      assert ops[..0] == [];
    }
  }

  /** Once the choice is made it stands: no later call sends another head or changes the encoding. */
  lemma ChosenOnce(s: State, op: Op)
    requires s.decided && s.status != 0 && s.sent != []
    ensures Step(s, op).decided && Step(s, op).on == s.on && Step(s, op).sent == s.sent
    ensures Sends(op) ==> Step(s, op).encoding == s.encoding && Step(s, op).contentType == s.contentType
  {
  }

  /** Whether a set call after the head has gone out leaves a value other than the one sent. */
  predicate TypeRestated(zip: bool, ops: seq<Op>) {
    LastType(AfterHead(zip, ops)).Some? && LastType(AfterHead(zip, ops)).value != SentType(zip, ops)
  }

  predicate EncodingRestated(zip: bool, ops: seq<Op>) {
    LastEncoding(AfterHead(zip, ops)).Some? && LastEncoding(AfterHead(zip, ops)).value != SentEncoding(zip, ops)
  }

  /**
   A replayed hit is the delivery again, bytes and headers, exactly when no call
   after the one that sent the head leaves another value in a header.
   */
  lemma ReplayIsTheDelivery(c: Codec, ops: seq<Op>)
    requires Undoes(c) && Statuses(ops) && Storable(Served(c, ops))
    ensures var s := Served(c, ops);
      && |s.sent| == 1 && s.kept == s.body && s.sent[0].status == 200
      && s.sent[0].contentType == SentType(true, ops) && s.sent[0].encoding == SentEncoding(true, ops)
      && (s.contentType == s.sent[0].contentType <==> !TypeRestated(true, ops))
      && (s.encoding == s.sent[0].encoding <==> !EncodingRestated(true, ops))
  {
    StoresWhatWasDelivered(c, ops);
    HeadersFollowTheCalls(ops);
    RunIsOk(ops);
    if !Committed(true, ops) { UncommittedSendsAll(true, ops); }
  }

  lemma LargeUntypedWrite(x: string)
    requires MIN_BYTES <= |x| <= MAX_BODY
    ensures GzWrite(START, x) ==
      State("", "", [Head(200, "", "")], x, 200, x, false, 200, "", true, false, [])
  {
    assert "" + x == x;
    assert UpTo("", ';') == "" && TrimSpace("") == "" && ToLower("") == "";
  }

  /** Such a call: a header set late is stored as it then is, and the entry misstates how its bytes were delivered. */
  lemma LateHeaderIsStored(c: Codec, x: string)
    requires MIN_BYTES <= |x| <= MAX_BODY
    ensures var s := Served(c, [Write(x), SetEncoding("br")]);
      Storable(s) && |s.sent| == 1 && s.encoding != s.sent[0].encoding
  {
    var wrote, late := [Write(x)], [Write(x), SetEncoding("br")];
    assert wrote[..0] == [] && late[..1] == wrote;
    LargeUntypedWrite(x);
    assert Run(wrote) == Step(Run([]), Write(x)) == GzWrite(START, x);
    assert Run(late) == Step(Run(wrote), SetEncoding("br"));
  }

  // A client that takes no gzip: the handler writes to the caching writer itself.

  function DirectStep(s: State, op: Op): State {
    match op
    case SetType(ct) => s.(contentType := ct)
    case SetEncoding(enc) => s.(encoding := enc)
    case WriteHeader(status) => KeepHeader(s, status)
    case Write(b) => KeepBytes(s, b)
    case Flush => KeepFlush(s)
  }

  function DirectRun(ops: seq<Op>): State {
    if ops == [] then START else DirectStep(DirectRun(ops[..|ops| - 1]), ops[|ops| - 1])
  }

  /** After the handler the connection sends the head it still owes. */
  function DirectServed(ops: seq<Op>): State { ConnHeader(DirectRun(ops), 200) }

  /** The status of the last explicit call, 200 when there are only writes. */
  function LastStatus(ops: seq<Op>): int {
    if ops == [] then 0
    else
      var before := LastStatus(ops[..|ops| - 1]);
      match ops[|ops| - 1]
      case WriteHeader(st) => st
      case Write(_) => if before == 0 then 200 else before
      case _ => before
  }

  /** The body kept or given up. */
  ghost predicate Keeps(s: State, written: string, flushed: bool) {
    (s.tooBig <==> flushed || |written| > MAX_BODY) && s.kept == if s.tooBig then "" else written
  }

  /** The connection's side: one head with the first status, and the body under it. */
  ghost predicate Carries(s: State, written: string, first: int) {
    if first == 0 then s.sent == [] && s.body == "" && written == ""
    else |s.sent| == 1 && s.sent[0].status == first && s.body == BodyUnder(first, written)
  }

  lemma WriteCarries(s: State, b: string, written: string, first: int)
    requires Carries(s, written, first)
    ensures Carries(ConnWrite(s, b), written + b, if first == 0 then 200 else first)
  {
    assert "" + b == b;
  }

  lemma WriteKeeps(s: State, b: string, written: string, flushed: bool)
    requires Keeps(s, written, flushed)
    ensures Keeps(KeepBytes(s, b), written + b, flushed)
  {
  }

  lemma {:induction false} DirectCarries(ops: seq<Op>)
    requires Statuses(ops)
    ensures Carries(DirectRun(ops), Written(ops), FirstStatus(ops))
  {
    if ops != [] {
      var front, op := ops[..|ops| - 1], ops[|ops| - 1];
      var s := DirectRun(front);
      DirectCarries(front);
      match op
      case Write(b) => WriteCarries(Copied(s, b), b, Written(front), FirstStatus(front));
      case _ =>
    }
  }

  lemma {:induction false} DirectKeeps(ops: seq<Op>)
    ensures DirectRun(ops).keptStatus == LastStatus(ops) && Keeps(DirectRun(ops), Written(ops), Flushes(ops))
  {
    if ops != [] {
      var front, op := ops[..|ops| - 1], ops[|ops| - 1];
      DirectKeeps(front);
      assert ops == front + [op];
      FlushesMore(front, op);
      if op.Write? { WriteKeeps(DirectRun(front), op.b, Written(front), Flushes(front)); }
    }
  }

  /**
   Without compression: one head, carrying the first status (200 when there was
   none), and the body that was written, if the status has one.
   */
  lemma DirectDelivers(ops: seq<Op>)
    requires Statuses(ops)
    ensures var s := DirectServed(ops);
      && |s.sent| == 1 && s.sent[0].status == FinalStatus(ops)
      && s.body == BodyUnder(FinalStatus(ops), Written(ops))
      && s.keptStatus == LastStatus(ops) && Keeps(s, Written(ops), Flushes(ops))
  {
    DirectCarries(ops);
    DirectKeeps(ops);
  }

  /** Some call sets status 200 after another status was already sent. */
  predicate Overrides(ops: seq<Op>) {
    ops != [] &&
    var front, last := ops[..|ops| - 1], ops[|ops| - 1];
    Overrides(front) || (last == WriteHeader(200) && FirstStatus(front) != 0 && FirstStatus(front) != 200)
  }

  lemma {:induction false} LastIsFirstUnlessOverridden(ops: seq<Op>)
    requires Statuses(ops)
    ensures Overrides(ops) ==> FirstStatus(ops) != 0 && FirstStatus(ops) != 200
    ensures LastStatus(ops) == 200 && !Overrides(ops) ==> FirstStatus(ops) == 200
    ensures LastStatus(ops) == 0 ==> FirstStatus(ops) == 0 || FirstStatus(ops) == 200
  {
    if ops != [] { LastIsFirstUnlessOverridden(ops[..|ops| - 1]); }
  }

  /**
   The caching writer remembers the last status while the connection sends the
   first: what is stored as a success was sent as one, with the body that is
   stored, exactly when no call set 200 over another status.
   */
  lemma DirectStoreIsHonestExactlyWhen(ops: seq<Op>)
    requires Statuses(ops) && Storable(DirectServed(ops))
    ensures var s := DirectServed(ops);
      && |s.sent| == 1 && s.kept == Written(ops)
      && (s.sent[0].status == 200 <==> !Overrides(ops))
      && (!Overrides(ops) ==> s.kept == s.body)
  {
    DirectDelivers(ops);
    LastIsFirstUnlessOverridden(ops);
  }

  /** A handler that reports an error and then a success has the error's body stored as a success. */
  lemma SecondStatusWins()
    ensures var s := DirectServed([WriteHeader(500), WriteHeader(200), Write("x")]);
      Storable(s) && s.kept == "x" && |s.sent| == 1 && s.sent[0].status == 500
  {
    var a, b, c := [WriteHeader(500)], [WriteHeader(500), WriteHeader(200)], [WriteHeader(500), WriteHeader(200), Write("x")];
    assert a[..0] == [] && b[..1] == a && c[..2] == b;
    assert DirectRun(a).sent == [Head(500, "", "")];
    assert DirectRun(b).keptStatus == 200 && DirectRun(b).kept == "";
  }

  lemma DirectHeads(s: State, op: Op)
    requires |s.sent| <= 1
    ensures var t := DirectStep(s, op);
      && Sets(s, t, op)
      && t.sent == if s.sent == [] && Sends(op) then [Head(if op.WriteHeader? then op.status else 200, s.contentType, s.encoding)] else s.sent
  {
  }

  lemma {:induction false} DirectHeadersFollowTheCalls(ops: seq<Op>)
    ensures |DirectRun(ops).sent| <= 1 && HeadersAre(false, DirectRun(ops), ops)
  {
    if ops != [] {
      var front, op := ops[..|ops| - 1], ops[|ops| - 1];
      assert ops == front + [op];
      DirectHeadersFollowTheCalls(front);
      DirectHeads(DirectRun(front), op);
      if Committed(false, front) {
        LateHeaders(false, DirectRun(front), DirectRun(ops), op, front);
      } else {
        EarlyCalls(false, front, op);
        LastMore(front, op);
      }
    }
  }

  /** The same exact condition without compression, where the first call with a status sends the head. */
  lemma DirectReplayIsTheDelivery(ops: seq<Op>)
    requires Statuses(ops) && Storable(DirectServed(ops))
    ensures var s := DirectServed(ops);
      && |s.sent| == 1
      && s.sent[0].contentType == SentType(false, ops) && s.sent[0].encoding == SentEncoding(false, ops)
      && (s.contentType == s.sent[0].contentType <==> !TypeRestated(false, ops))
      && (s.encoding == s.sent[0].encoding <==> !EncodingRestated(false, ops))
  {
    DirectDelivers(ops);
    DirectHeadersFollowTheCalls(ops);
    if !Committed(false, ops) { UncommittedSendsAll(false, ops); }
  }

  /** A header set between the status and the body is stored and was not sent. */
  lemma LateHeaderIsStoredDirect()
    ensures var s := DirectServed([WriteHeader(200), SetEncoding("br"), Write("x")]);
      Storable(s) && |s.sent| == 1 && s.encoding == "br" && s.sent[0].encoding == ""
  {
    var a, b, c := [WriteHeader(200)], [WriteHeader(200), SetEncoding("br")], [WriteHeader(200), SetEncoding("br"), Write("x")];
    assert a[..0] == [] && b[..1] == a && c[..2] == b;
    assert DirectRun(a).sent == [Head(200, "", "")];
    assert DirectRun(b).kept == "" && DirectRun(b).encoding == "br";
  }

  // The writers as objects.

  class Connection {
    var contentType: string
    var encoding: string
    var sent: seq<Head>
    var body: string

    constructor ()
      ensures contentType == "" && encoding == "" && sent == [] && body == ""
    {
      contentType, encoding, sent, body := "", "", [], "";
    }

    /** One head; a second call changes nothing. */
    method WriteHeader(status: int)
      modifies this`sent
      ensures sent == if old(sent) == [] then [Head(status, contentType, encoding)] else old(sent)
    {
      if |sent| == 0 { sent := [Head(status, contentType, encoding)]; }
    }

    method Write(b: string)
      modifies this`sent, this`body
      ensures sent == if old(sent) == [] then [Head(200, contentType, encoding)] else old(sent)
      ensures body == old(body) + BodyUnder(sent[0].status, b)
    {
      WriteHeader(200);
      if !NoBody(sent[0].status) { body := body + b; }
    }
  }

  class CachingWriter {
    const conn: Connection
    var status: int
    var buf: string
    var tooBig: bool

    constructor (conn: Connection)
      ensures this.conn == conn && status == 0 && buf == "" && !tooBig
    {
      this.conn := conn;
      status, buf, tooBig := 0, "", false;
    }

    method WriteHeader(st: int)
      modifies this`status, conn`sent
      ensures status == st
      ensures conn.sent == if old(conn.sent) == [] then [Head(st, conn.contentType, conn.encoding)] else old(conn.sent)
    {
      status := st;
      conn.WriteHeader(st);
    }

    method Write(b: string)
      modifies this, conn`sent, conn`body
      ensures conn.sent == if old(conn.sent) == [] then [Head(200, conn.contentType, conn.encoding)] else old(conn.sent)
      ensures conn.body == old(conn.body) + BodyUnder(conn.sent[0].status, b)
      ensures status == (if old(status) == 0 then 200 else old(status))
      ensures tooBig == (old(tooBig) || |old(buf)| + |b| > MAX_BODY)
      ensures buf == if old(tooBig) then old(buf) else if |old(buf)| + |b| > MAX_BODY then "" else old(buf) + b
    {
      if status == 0 { status := 200; }
      if !tooBig {
        if |buf| + |b| > MAX_BODY {
          tooBig := true;
          buf := "";
        } else {
          buf := buf + b;
        }
      }
      conn.Write(b);
    }

    method Flush()
      modifies this`tooBig, this`buf, conn`sent
      ensures tooBig && buf == ""
      ensures conn.sent == if old(conn.sent) == [] then [Head(200, conn.contentType, conn.encoding)] else old(conn.sent)
    {
      tooBig := true;
      buf := "";
      conn.WriteHeader(200);
    }

    ghost function View(): State
      reads this, conn
    {
      START.(contentType := conn.contentType, encoding := conn.encoding, sent := conn.sent, body := conn.body,
             keptStatus := status, kept := buf, tooBig := tooBig)
    }

    method Do(op: Op)
      modifies this, conn
      ensures View() == DirectStep(old(View()), op)
    {
      match op
      case SetType(ct) => conn.contentType := ct;
      case SetEncoding(enc) => conn.encoding := enc;
      case WriteHeader(st) => WriteHeader(st);
      case Write(b) => Write(b);
      case Flush => Flush();
    }

    /** A whole handler run for a client that takes no gzip. */
    method Serve(ops: seq<Op>)
      requires View() == START
      modifies this, conn
      ensures View() == DirectServed(ops)
    {
      for i := 0 to |ops|
        invariant View() == DirectRun(ops[..i])
      {
        assert ops[..i + 1][..i] == ops[..i];
        Do(ops[i]);
      }
      assert ops[..|ops|] == ops;
      conn.WriteHeader(200);
    }
  }

  class GzipWriter {
    const below: CachingWriter
    var chunks: seq<Chunk>
    var pending: string
    var decided: bool
    var on: bool
    var status: int

    constructor (below: CachingWriter)
      requires below.status == 0 && below.buf == "" && !below.tooBig
      requires below.conn.contentType == "" && below.conn.encoding == "" && below.conn.sent == [] && below.conn.body == ""
      ensures this.below == below && View() == START
    {
      this.below := below;
      chunks, pending, decided, on, status := [], "", false, false, 0;
    }

    ghost function View(): State
      reads this, below, below.conn
    {
      State(below.conn.contentType, below.conn.encoding, below.conn.sent, below.conn.body,
            below.status, below.buf, below.tooBig, status, pending, decided, on, chunks)
    }

    method SendHeader(st: int)
      modifies this, below, below.conn
      ensures View() == GzHeader(old(View()), st)
    {
      if status != 0 { return; }
      status := st;
      if st < 200 || st == 204 || st == 304 {
        decided, on := true, false;
        below.WriteHeader(st);
      }
    }

    method Send(b: string)
      modifies this, below, below.conn
      ensures View() == GzWrite(old(View()), b)
    {
      if status == 0 { SendHeader(200); }
      if decided {
        if on { chunks := chunks + [Data(b)]; } else { below.Write(b); }
        return;
      }
      pending := pending + b;
      if |pending| >= MIN_BYTES { Settle(true); }
    }

    method Announce(mayCompress: bool)
      modifies this, below, below.conn
      ensures View() == Announced(old(View()), mayCompress)
    {
      decided := true;
      on := mayCompress && below.conn.encoding == "" && Compressible(below.conn.contentType);
      if on { below.conn.encoding := "gzip"; }
      if status == 0 { status := 200; }
      below.WriteHeader(status);
    }

    method Settle(mayCompress: bool)
      modifies this, below, below.conn
      ensures View() == Commit(old(View()), mayCompress)
      ensures !old(decided) ==>
        (on <==> mayCompress && old(below.conn.encoding) == "" && WorthZipping(below.conn.contentType))
    {
      if decided { return; }
      CompressibleIs(below.conn.contentType);
      Announce(mayCompress);
      if |pending| > 0 {
        if on { chunks := chunks + [Data(pending)]; } else { below.Write(pending); }
        pending := "";
      }
    }

    method FlushThrough()
      modifies this, below, below.conn
      ensures View() == GzFlush(old(View()))
    {
      Settle(true);
      if on { chunks := chunks + [Sync]; }
      below.Flush();
    }

    method Finish(c: Codec)
      modifies this, below, below.conn
      ensures View() == Close(c, old(View()))
    {
      Settle(false);
      if on { below.Write(c.enc(chunks)); }
    }

    /** A whole handler run under WithCompression, then the deferred close. */
    method Serve(c: Codec, ops: seq<Op>)
      requires View() == START
      modifies this, below, below.conn
      ensures View() == Served(c, ops)
      ensures Statuses(ops) && !SetsEncoding(ops) ==>
        |below.conn.sent| == 1 && (below.conn.sent[0].encoding == "gzip" <==> Fills(ops) && WorthZipping(SentType(true, ops)))
    {
      for i := 0 to |ops|
        invariant View() == Run(ops[..i])
      {
        assert ops[..i + 1][..i] == ops[..i];
        match ops[i]
        case SetType(ct) => below.conn.contentType := ct;
        case SetEncoding(enc) => below.conn.encoding := enc;
        case WriteHeader(st) => SendHeader(st);
        case Write(b) => Send(b);
        case Flush => FlushThrough();
      }
      assert ops[..|ops|] == ops;
      Finish(c);
      if Statuses(ops) && !SetsEncoding(ops) { ZippedExactlyWhen(c, ops); }
    }
  }
}
