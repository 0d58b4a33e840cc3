/**
 The receipt auditor: it re-reads every retained receipt and judges each document or copy it
 names against the stored rows. Receipts are read as untrusted data, in pages, and compared in
 batches.
 */
module ReceiptAudit {
  import opened Common
  import opened Filings
  import opened FilingInvariants
  import opened FilingRequests
  import opened FilingRuns

  const PAGE: nat := 25
  const BATCH: nat := 250

  /** A manifest entry as stored: any part may be absent or of the wrong type. */
  datatype Raw = NotObject | Raw(id: Option<int>, document: Option<int>, sha: Option<string>, size: Option<int>)

  datatype Row = Row(id: nat, filing: nat, isCopy: bool, manifest: Option<seq<Raw>>)

  datatype Status = InvalidManifest | MissingMetadata | ReceiptMismatch | MetadataConsistent

  /** A verdict on a receipt as a whole (no index) or on one of its entries. */
  datatype Verdict = Verdict(receipt: nat, index: Option<nat>, status: Status)

  datatype Reference = Reference(receipt: nat, index: nat, filing: nat, isCopy: bool,
                                 document: nat, copyId: nat, sha: string, size: int)

  // ---------------------------------------------------------------- what is audited

  predicate Audited(e: Event) {
    Manifested(e) || e.CopyPublished?
  }

  function RawEntry(e: Entry): Raw {
    Raw(Some(e.id), None, Some(e.file.sha), Some(e.file.size))
  }

  function RawManifest(m: seq<Entry>): seq<Raw> {
    seq(|m|, k requires 0 <= k < |m| => RawEntry(m[k]))
  }

  /** How a history row reads back from its stored details. */
  function RowOf(i: nat, tx: Tx): Row
    requires Audited(tx.event)
  {
    if tx.event.CopyPublished? then
      var c := tx.event.copy;
      Row(i, tx.filing, true, Some([Raw(Some(c.id), Some(c.document), Some(c.sha), Some(c.size))]))
    else Row(i, tx.filing, false, Some(RawManifest(tx.event.documents)))
  }

  datatype Scope = Scope(court: Option<nat>, case_: Option<nat>)

  predicate InScope(s: State, f: nat, scope: Scope) {
    && (scope.court.Some? ==> f < |s.envelopes| && s.envelopes[f].court == scope.court.value)
    && (scope.case_.Some? ==> f < |s.envelopes| && s.envelopes[f].case_ == scope.case_)
  }

  function RowsFrom(s: State, scope: Scope, i: nat): seq<Row>
    decreases |s.txs| - i
  {
    if i >= |s.txs| then []
    else
      (if Audited(s.txs[i].event) && InScope(s, s.txs[i].filing, scope) then [RowOf(i, s.txs[i])] else [])
      + RowsFrom(s, scope, i + 1)
  }

  function AuditRows(s: State, scope: Scope): seq<Row> {
    RowsFrom(s, scope, 0)
  }

  // ---------------------------------------------------------------- verdicts

  predicate ValidFingerprint(sha: Option<string>, size: Option<int>) {
    sha.Some? && IsSha(sha.value) && size.Some? && size.value >= 0
  }

  predicate WellFormed(e: Raw, isCopy: bool) {
    && e.Raw? && e.id.Some? && e.id.value > 0
    && (isCopy ==> e.document.Some? && e.document.value > 0)
    && ValidFingerprint(e.sha, e.size)
  }

  function ReferenceOf(row: Row, k: nat, e: Raw): Reference
    requires WellFormed(e, row.isCopy)
  {
    if row.isCopy then Reference(row.id, k, row.filing, true, e.document.value, e.id.value, e.sha.value, e.size.value)
    else Reference(row.id, k, row.filing, false, e.id.value, 0, e.sha.value, e.size.value)
  }

  function Compared(s: State, ref: Reference): Verdict {
    var hasCopy := 0 < ref.copyId <= |s.copies|;
    var status :=
      if ref.document !in s.docs || (ref.isCopy && !hasCopy) then MissingMetadata
      else if s.docs[ref.document].envelope != ref.filing then ReceiptMismatch
      else if ref.isCopy then
        var c := s.copies[ref.copyId - 1];
        if c.document != ref.document || c.sha != ref.sha || c.size != ref.size then ReceiptMismatch else MetadataConsistent
      else if s.docs[ref.document].file.sha != ref.sha || s.docs[ref.document].file.size != ref.size then ReceiptMismatch
      else MetadataConsistent;
    Verdict(ref.receipt, Some(ref.index), status)
  }

  function Judge(s: State, row: Row, k: nat, e: Raw): Verdict {
    if WellFormed(e, row.isCopy) then Compared(s, ReferenceOf(row, k, e)) else Verdict(row.id, Some(k), InvalidManifest)
  }

  /** The verdicts on the first `n` entries of a row's manifest. */
  function EntryVerdicts(s: State, row: Row, n: nat): seq<Verdict>
    requires row.manifest.Some? && n <= |row.manifest.value|
  {
    if n == 0 then [] else EntryVerdicts(s, row, n - 1) + [Judge(s, row, n - 1, row.manifest.value[n - 1])]
  }

  function RowVerdicts(s: State, row: Row): seq<Verdict> {
    if row.manifest.None? || row.manifest.value == [] then [Verdict(row.id, None, InvalidManifest)]
    else EntryVerdicts(s, row, |row.manifest.value|)
  }

  /** The verdict on every entry of every receipt, one at a time. */
  function Verdicts(s: State, rows: seq<Row>): seq<Verdict> {
    if rows == [] then [] else Verdicts(s, rows[..|rows| - 1]) + RowVerdicts(s, rows[|rows| - 1])
  }

  // ---------------------------------------------------------------- the auditor

  function AllCompared(s: State, refs: seq<Reference>): seq<Verdict> {
    seq(|refs|, k requires 0 <= k < |refs| => Compared(s, refs[k]))
  }

  lemma ComparedOneMore(s: State, refs: seq<Reference>, ref: Reference)
    ensures AllCompared(s, refs + [ref]) == AllCompared(s, refs) + [Compared(s, ref)]
  {
  }

  method CompareReceiptBatch(s: State, refs: seq<Reference>) returns (results: seq<Verdict>)
    ensures results == AllCompared(s, refs)
  {
    results := [];
    var k := 0;
    while k < |refs|
      invariant k <= |refs| && results == AllCompared(s, refs[..k])
    {
      var ref := refs[k];
      var status := MetadataConsistent;
      if ref.document !in s.docs || (ref.isCopy && !(0 < ref.copyId <= |s.copies|)) {
        status := MissingMetadata;
      } else {
        var (sha, size) := if ref.isCopy then (s.copies[ref.copyId - 1].sha, s.copies[ref.copyId - 1].size)
        else (s.docs[ref.document].file.sha, s.docs[ref.document].file.size);
        if s.docs[ref.document].envelope != ref.filing
           || (ref.isCopy && s.copies[ref.copyId - 1].document != ref.document)
           || sha != ref.sha || size != ref.size {
          status := ReceiptMismatch;
        }
      }
      ComparedOneMore(s, refs[..k], ref);
      assert refs[..k + 1] == refs[..k] + [ref];
      results := results + [Verdict(ref.receipt, Some(ref.index), status)];
      k := k + 1;
    }
    assert refs[..k] == refs;
  }

  /** The same verdicts, in some order. */
  ghost predicate SameVerdicts(a: seq<Verdict>, b: seq<Verdict>) {
    multiset(a) == multiset(b)
  }

  lemma Yielded(results: seq<Verdict>, held: seq<Verdict>, spec: seq<Verdict>, v: Verdict)
    requires SameVerdicts(results + held, spec)
    ensures SameVerdicts(results + [v] + held, spec + [v])
  {
  }

  lemma Held(results: seq<Verdict>, held: seq<Verdict>, spec: seq<Verdict>, v: Verdict)
    requires SameVerdicts(results + held, spec)
    ensures SameVerdicts(results + (held + [v]), spec + [v])
  {
    assert results + (held + [v]) == results + held + [v];
  }

  lemma Flushed(s: State, results: seq<Verdict>, held: seq<Verdict>)
    ensures results + held == results + held + AllCompared(s, [])
  {
    assert AllCompared(s, []) == [];
  }

  method InspectRow(s: State, row: Row, out: seq<Verdict>, pending: seq<Reference>, ghost spec: seq<Verdict>)
    returns (results: seq<Verdict>, references: seq<Reference>)
    requires |pending| < BATCH && SameVerdicts(out + AllCompared(s, pending), spec)
    ensures |references| < BATCH && SameVerdicts(results + AllCompared(s, references), spec + RowVerdicts(s, row))
  {
    hide AllCompared, SameVerdicts, Judge;
    results, references := out, pending;
    if row.manifest.None? || row.manifest.value == [] {
      Yielded(results, AllCompared(s, references), spec, Verdict(row.id, None, InvalidManifest));
      results := results + [Verdict(row.id, None, InvalidManifest)];
      return;
    }
    var index := 0;
    assert spec + [] == spec;
    while index < |row.manifest.value|
      invariant index <= |row.manifest.value| && |references| < BATCH
      invariant SameVerdicts(results + AllCompared(s, references), spec + EntryVerdicts(s, row, index))
    {
      var entry := row.manifest.value[index];
      ghost var before, v := spec + EntryVerdicts(s, row, index), Judge(s, row, index, entry);
      assert spec + EntryVerdicts(s, row, index + 1) == before + [v];
      JudgeEntry(s, row, index, entry);
      if !WellFormed(entry, row.isCopy) {
        Yielded(results, AllCompared(s, references), before, v);
        results := results + [Verdict(row.id, Some(index), InvalidManifest)];
      } else {
        Held(results, AllCompared(s, references), before, v);
        ComparedOneMore(s, references, ReferenceOf(row, index, entry));
        references := references + [ReferenceOf(row, index, entry)];
        if |references| == BATCH {
          var compared := CompareReceiptBatch(s, references);
          Flushed(s, results, compared);
          results, references := results + compared, [];
        }
      }
      index := index + 1;
    }
  }

  lemma JudgeEntry(s: State, row: Row, k: nat, e: Raw)
    ensures Judge(s, row, k, e)
         == if WellFormed(e, row.isCopy) then Compared(s, ReferenceOf(row, k, e)) else Verdict(row.id, Some(k), InvalidManifest)
  {
  }

  lemma VerdictsOneMore(s: State, rows: seq<Row>, i: nat)
    requires i < |rows|
    ensures Verdicts(s, rows[..i + 1]) == Verdicts(s, rows[..i]) + RowVerdicts(s, rows[i])
  {
    assert rows[..i + 1][..i] == rows[..i];
  }

  lemma NothingYet(s: State, rows: seq<Row>)
    ensures SameVerdicts([] + AllCompared(s, []), Verdicts(s, rows[..0]))
  {
    assert rows[..0] == [] && AllCompared(s, []) == [];
  }

  /** Paging and batching change the order of the verdicts and nothing else, and every entry is answered once and fairly. */
  method InspectRows(s: State, rows: seq<Row>) returns (results: seq<Verdict>)
    ensures SameVerdicts(results, Verdicts(s, rows)) && |results| == Expected(rows)
    ensures forall v | v in results :: Answers(s, rows, v)
    ensures forall i, k: Option<nat> | 0 <= i < |rows| && Asked(rows[i], k) :: Answered(results, rows[i].id, k)
  {
    hide AllCompared, RowVerdicts, Verdicts, SameVerdicts, Answers, Asked, Expected;
    results := [];
    var references: seq<Reference> := [];
    var done := 0;
    NothingYet(s, rows);
    while done < |rows|
      invariant done <= |rows| && |references| < BATCH
      invariant SameVerdicts(results + AllCompared(s, references), Verdicts(s, rows[..done]))
    {
      var end := if done + PAGE < |rows| then done + PAGE else |rows|;
      while done < end
        invariant done <= end <= |rows| && |references| < BATCH
        invariant SameVerdicts(results + AllCompared(s, references), Verdicts(s, rows[..done]))
      {
        VerdictsOneMore(s, rows, done);
        results, references := InspectRow(s, rows[done], results, references, Verdicts(s, rows[..done]));
        done := done + 1;
      }
    }
    assert rows[..done] == rows;
    if references != [] {
      var compared := CompareReceiptBatch(s, references);
      results := results + compared;
    } else {
      NoneCompared(s);
      assert results + [] == results;
    }
    SameMembers(results, Verdicts(s, rows));
    VerdictsFair(s, rows);
    AllAsked(s, rows);
  }

  /** The audit of the history itself, by court, case or both. */
  method InspectReceipts(s: State, scope: Scope) returns (results: seq<Verdict>)
    ensures SameVerdicts(results, Verdicts(s, AuditRows(s, scope)))
    ensures forall v | v in results :: v.receipt < |s.txs| && HistoryAnswer(s, s.txs[v.receipt], v)
    ensures forall i: nat, k: nat | i < |s.txs| && InScope(s, s.txs[i].filing, scope) && k < EntryCount(s.txs[i].event) ::
              Answered(results, i, Some(k))
  {
    hide SameVerdicts, AuditRows, Verdicts, HistoryAnswer, EntryCount, Audited, InScope;
    var rows := AuditRows(s, scope);
    results := InspectRows(s, rows);
    HistoryAnswers(s, scope, results);
    HistoryAsked(s, scope, results);
  }

  // ---------------------------------------------------------------- what a verdict means

  /** The entry names positive ids, a digest of 64 lower-case hexadecimal digits and a size. */
  predicate ReadsWell(e: Raw, isCopy: bool) {
    && e != NotObject && e.id.Some? && e.id.value >= 1 && (isCopy ==> e.document.Some? && e.document.value >= 1)
    && e.sha.Some? && |e.sha.value| == 64 && (forall c | c in e.sha.value :: c in "0123456789abcdef") && e.size.Some? && e.size.value >= 0
  }

  /** The document row is there, and for a copy the copy row too. */
  predicate RowsThere(s: State, row: Row, e: Raw)
    requires ReadsWell(e, row.isCopy)
  {
    if row.isCopy then e.document.value in s.docs && 1 <= e.id.value <= |s.copies| else e.id.value in s.docs
  }

  /** The stored rows bear the entry out: filing, digest and size, and for a copy its document. */
  predicate BornOut(s: State, row: Row, e: Raw)
    requires ReadsWell(e, row.isCopy)
  {
    && RowsThere(s, row, e)
    && if row.isCopy then
         && s.docs[e.document.value].envelope == row.filing && s.copies[e.id.value - 1].document == e.document.value
         && s.copies[e.id.value - 1].sha == e.sha.value && s.copies[e.id.value - 1].size == e.size.value
       else
         && s.docs[e.id.value].envelope == row.filing
         && s.docs[e.id.value].file.sha == e.sha.value && s.docs[e.id.value].file.size == e.size.value
  }

  /** Each verdict is given exactly when it is deserved. */
  ghost predicate Fair(s: State, row: Row, e: Raw, status: Status) {
    && (status.InvalidManifest? <==> !ReadsWell(e, row.isCopy))
    && (status.MissingMetadata? <==> ReadsWell(e, row.isCopy) && !RowsThere(s, row, e))
    && (status.MetadataConsistent? <==> ReadsWell(e, row.isCopy) && BornOut(s, row, e))
    && (status.ReceiptMismatch? <==> ReadsWell(e, row.isCopy) && RowsThere(s, row, e) && !BornOut(s, row, e))
  }

  ghost predicate AnswersRow(s: State, row: Row, v: Verdict) {
    && v.receipt == row.id && Asked(row, v.index)
    && if v.index.None? then v.status.InvalidManifest? else Fair(s, row, row.manifest.value[v.index.value], v.status)
  }

  /** The verdicts a row calls for: one for each entry, or one on the row when it lists nothing. */
  predicate Asked(row: Row, k: Option<nat>) {
    if row.manifest.None? || row.manifest.value == [] then k.None? else k.Some? && k.value < |row.manifest.value|
  }

  ghost predicate Answers(s: State, rows: seq<Row>, v: Verdict) {
    exists i | 0 <= i < |rows| :: AnswersRow(s, rows[i], v)
  }

  ghost predicate Answered(results: seq<Verdict>, receipt: nat, k: Option<nat>) {
    exists v | v in results :: v.receipt == receipt && v.index == k
  }

  function Expected(rows: seq<Row>): nat {
    if rows == [] then 0
    else
      var row := rows[|rows| - 1];
      Expected(rows[..|rows| - 1]) + if row.manifest.None? || row.manifest.value == [] then 1 else |row.manifest.value|
  }

  lemma ReadsAreSound(e: Raw, isCopy: bool)
    ensures WellFormed(e, isCopy) <==> ReadsWell(e, isCopy)
  {
    if e.Raw? && e.sha.Some? {
      var sha := e.sha.value;
      forall c: char ensures ('0' <= c <= '9' || 'a' <= c <= 'f') <==> c in "0123456789abcdef" { HexDigit(c); }
      assert (forall c | c in sha :: c in "0123456789abcdef") ==> forall k | 0 <= k < |sha| :: sha[k] in sha;
    }
  }

  lemma HexDigit(c: char)
    ensures ('0' <= c <= '9' || 'a' <= c <= 'f') <==> c in "0123456789abcdef"
  {
    var digits := "0123456789abcdef";
    if '0' <= c <= '9' {
      assert digits[c as int - '0' as int] == c;
    } else if 'a' <= c <= 'f' {
      assert digits[10 + c as int - 'a' as int] == c;
    }
  }

  /** Soundness of the audit, whatever the tables hold. */
  lemma VerdictIsFair(s: State, row: Row, k: nat, e: Raw)
    ensures Fair(s, row, e, Judge(s, row, k, e).status)
  {
    ReadsAreSound(e, row.isCopy);
    hide WellFormed, ReadsWell;
    if WellFormed(e, row.isCopy) { PartsRead(e, row.isCopy); }
  }

  lemma PartsRead(e: Raw, isCopy: bool)
    requires WellFormed(e, isCopy)
    ensures e.Raw? && e.id.Some? && e.id.value > 0 && e.sha.Some? && e.size.Some? && e.size.value >= 0
    ensures isCopy ==> e.document.Some? && e.document.value > 0
  {
  }

  lemma {:induction false} EntriesFair(s: State, row: Row, n: nat)
    requires row.manifest.Some? && n <= |row.manifest.value|
    ensures forall v | v in EntryVerdicts(s, row, n) :: AnswersRow(s, row, v)
    ensures |EntryVerdicts(s, row, n)| == n
  {
    if n > 0 {
      EntriesFair(s, row, n - 1);
      VerdictIsFair(s, row, n - 1, row.manifest.value[n - 1]);
      hide Fair;
      JudgeNamed(s, row, n - 1, row.manifest.value[n - 1]);
    }
  }

  lemma JudgeNamed(s: State, row: Row, k: nat, e: Raw)
    ensures Judge(s, row, k, e).receipt == row.id && Judge(s, row, k, e).index == Some(k)
  {
  }

  lemma {:induction false} VerdictsFair(s: State, rows: seq<Row>)
    ensures forall v | v in Verdicts(s, rows) :: Answers(s, rows, v)
    ensures |Verdicts(s, rows)| == Expected(rows)
  {
    if rows != [] {
      var n := |rows| - 1;
      VerdictsFair(s, rows[..n]);
      if rows[n].manifest.Some? { EntriesFair(s, rows[n], |rows[n].manifest.value|); }
      forall v | v in Verdicts(s, rows) ensures Answers(s, rows, v) {
        if v in Verdicts(s, rows[..n]) {
          var i :| 0 <= i < n && AnswersRow(s, rows[..n][i], v);
          assert AnswersRow(s, rows[i], v);
        } else {
          assert AnswersRow(s, rows[n], v);
        }
      }
    }
  }

  lemma SameMembers(a: seq<Verdict>, b: seq<Verdict>)
    requires SameVerdicts(a, b)
    ensures |a| == |b| && forall v :: v in a <==> v in b
  {
    assert |multiset(a)| == |a| && |multiset(b)| == |b|;
    assert forall v :: v in a <==> v in multiset(a);
    assert forall v :: v in b <==> v in multiset(b);
  }

  lemma AllAsked(s: State, rows: seq<Row>)
    ensures forall i, k: Option<nat> | 0 <= i < |rows| && Asked(rows[i], k) :: Answered(Verdicts(s, rows), rows[i].id, k)
  {
    forall i, k: Option<nat> | 0 <= i < |rows| && Asked(rows[i], k) ensures Answered(Verdicts(s, rows), rows[i].id, k) {
      var row := rows[i];
      var v := if k.None? then Verdict(row.id, None, InvalidManifest) else Judge(s, row, k.value, row.manifest.value[k.value]);
      if k.Some? {
        JudgeNamed(s, row, k.value, row.manifest.value[k.value]);
        EntryListed(s, row, |row.manifest.value|, k.value);
      }
      VerdictListed(s, rows, i, v);
      assert v in Verdicts(s, rows);
    }
  }

  /** How many entries a history row lists. */
  function EntryCount(e: Event): nat {
    if e.CopyPublished? then 1
    else if e.Receipt? || e.FeeReviewRequested? || e.FeeAssessed? || e.WaiverDecided? || e.DateOrdered? then |e.documents|
    else 0
  }

  /** What a verdict on a history row says about the tables, in the row's own terms. */
  ghost predicate HistoryAnswer(s: State, tx: Tx, v: Verdict) {
    if v.index.None? then Manifested(tx.event) && tx.event.documents == [] && v.status.InvalidManifest?
    else if tx.event.CopyPublished? then
      var c := tx.event.copy;
      && v.index.value == 0
      && (v.status.MetadataConsistent? <==>
            && c.id > 0 && c.document > 0 && c.document in s.docs && s.docs[c.document].envelope == tx.filing && c.id <= |s.copies|
            && s.copies[c.id - 1].document == c.document && s.copies[c.id - 1].sha == c.sha && s.copies[c.id - 1].size == c.size)
      && (v.status.MissingMetadata? <==> c.id > 0 && c.document > 0 && (c.document !in s.docs || c.id > |s.copies|))
      && (v.status.InvalidManifest? <==> c.id == 0 || c.document == 0)
    else
      && Manifested(tx.event) && v.index.value < |tx.event.documents|
      && var e := tx.event.documents[v.index.value];
         && (v.status.MetadataConsistent? <==>
               && e.id > 0 && e.id in s.docs && s.docs[e.id].envelope == tx.filing
               && s.docs[e.id].file.sha == e.file.sha && s.docs[e.id].file.size == e.file.size)
         && (v.status.MissingMetadata? <==> e.id > 0 && e.id !in s.docs)
         && (v.status.InvalidManifest? <==> e.id == 0)
  }

  lemma ShaReads(sha: Sha)
    ensures |sha| == 64 && forall c | c in sha :: c in "0123456789abcdef"
  {
    forall c | c in sha ensures c in "0123456789abcdef" { HexDigit(c); }
  }

  lemma RowAnswer(s: State, i: nat, v: Verdict)
    requires i < |s.txs| && Audited(s.txs[i].event) && AnswersRow(s, RowOf(i, s.txs[i]), v)
    ensures v.receipt == i && HistoryAnswer(s, s.txs[i], v)
  {
    var tx := s.txs[i];
    if v.index.Some? {
      if tx.event.CopyPublished? { ShaReads(tx.event.copy.sha); } else { ShaReads(tx.event.documents[v.index.value].file.sha); }
    }
  }

  lemma HistoryAnswers(s: State, scope: Scope, results: seq<Verdict>)
    requires forall v | v in results :: Answers(s, AuditRows(s, scope), v)
    ensures forall v | v in results :: v.receipt < |s.txs| && HistoryAnswer(s, s.txs[v.receipt], v)
  {
    hide HistoryAnswer, AnswersRow;
    var rows := AuditRows(s, scope);
    RowsConsistent(s, scope, 0);
    forall v | v in results ensures v.receipt < |s.txs| && HistoryAnswer(s, s.txs[v.receipt], v) {
      var i :| 0 <= i < |rows| && AnswersRow(s, rows[i], v);
      assert rows[i] in rows && Rendered(s, rows[i]);
      var k: nat :| k < |s.txs| && Audited(s.txs[k].event) && rows[i] == RowOf(k, s.txs[k]);
      RowAnswer(s, k, v);
    }
  }

  lemma HistoryAsked(s: State, scope: Scope, results: seq<Verdict>)
    requires var rows := AuditRows(s, scope);
             forall i, k: Option<nat> | 0 <= i < |rows| && Asked(rows[i], k) :: Answered(results, rows[i].id, k)
    ensures forall i: nat, k: nat | i < |s.txs| && InScope(s, s.txs[i].filing, scope) && k < EntryCount(s.txs[i].event) ::
              Answered(results, i, Some(k))
  {
    hide InScope;
    var rows := AuditRows(s, scope);
    forall i: nat, k: nat | i < |s.txs| && InScope(s, s.txs[i].filing, scope) && k < EntryCount(s.txs[i].event)
      ensures Answered(results, i, Some(k))
    {
      RowListed(s, scope, 0, i);
      hide RowsFrom;
      var n :| 0 <= n < |rows| && rows[n] == RowOf(i, s.txs[i]);
      assert Asked(rows[n], Some(k));
    }
  }

  lemma NoneCompared(s: State)
    ensures AllCompared(s, []) == []
  {
  }

  // ---------------------------------------------------------------- every receipt is consistent

  ghost predicate Rendered(s: State, row: Row) {
    exists k: nat | k < |s.txs| :: Audited(s.txs[k].event) && row == RowOf(k, s.txs[k])
  }

  lemma RowConsistent(s: State, i: nat, n: nat)
    requires i < |s.txs| && TxOk(s, s.txs[i]) && Audited(s.txs[i].event)
    requires n <= |RowOf(i, s.txs[i]).manifest.value|
    ensures forall v | v in EntryVerdicts(s, RowOf(i, s.txs[i]), n) :: v.status.MetadataConsistent?
  {
    var tx := s.txs[i];
    if n > 0 {
      RowConsistent(s, i, n - 1);
      if !tx.event.CopyPublished? {
        assert Kept(s, tx.filing, tx.event.documents[n - 1]);
      }
    }
  }

  lemma {:induction false} RowsConsistent(s: State, scope: Scope, i: nat)
    requires i <= |s.txs|
    ensures forall row | row in RowsFrom(s, scope, i) :: Rendered(s, row)
    decreases |s.txs| - i
  {
    if i < |s.txs| {
      RowsConsistent(s, scope, i + 1);
    }
  }

  lemma {:induction false} VerdictsConsistent(s: State, rows: seq<Row>)
    requires Inv(s)
    requires forall row | row in rows :: Rendered(s, row)
    ensures forall v | v in Verdicts(s, rows) :: v.status.MetadataConsistent?
  {
    if rows != [] {
      var n := |rows| - 1;
      assert forall row | row in rows[..n] :: row in rows;
      VerdictsConsistent(s, rows[..n]);
      assert rows[n] in rows && Rendered(s, rows[n]);
      var k: nat :| k < |s.txs| && Audited(s.txs[k].event) && rows[n] == RowOf(k, s.txs[k]);
      assert TxOk(s, s.txs[k]);
      hide Inv;
      RowConsistent(s, k, |rows[n].manifest.value|);
    }
  }

  /** In every reachable state the auditor finds every receipt whole and every row it names unchanged. */
  lemma EveryReceiptConsistent(cfg: Config, r: seq<State>, x: nat, scope: Scope)
    requires Run(cfg, r) && x < |r|
    ensures forall v | v in Verdicts(r[x], AuditRows(r[x], scope)) :: v.status.MetadataConsistent?
  {
    RunInv(cfg, r, x);
    hide Run, Inv;
    RowsConsistent(r[x], scope, 0);
    VerdictsConsistent(r[x], AuditRows(r[x], scope));
  }

  lemma {:induction false} RowListed(s: State, scope: Scope, j: nat, i: nat)
    requires j <= i < |s.txs| && Audited(s.txs[i].event) && InScope(s, s.txs[i].filing, scope)
    ensures RowOf(i, s.txs[i]) in RowsFrom(s, scope, j)
    decreases i - j
  {
    if j < i { RowListed(s, scope, j + 1, i); }
  }

  lemma {:induction false} EntryListed(s: State, row: Row, n: nat, k: nat)
    requires row.manifest.Some? && k < n <= |row.manifest.value|
    ensures Judge(s, row, k, row.manifest.value[k]) in EntryVerdicts(s, row, n)
  {
    if k < n - 1 { EntryListed(s, row, n - 1, k); }
  }

  lemma {:induction false} VerdictListed(s: State, rows: seq<Row>, i: nat, v: Verdict)
    requires i < |rows| && v in RowVerdicts(s, rows[i])
    ensures v in Verdicts(s, rows)
  {
    if i < |rows| - 1 { VerdictListed(s, rows[..|rows| - 1], i, v); }
  }

  /** No retained receipt escapes the audit: each document it names gets its own consistent verdict. */
  lemma EveryEntryJudged(cfg: Config, r: seq<State>, x: nat, scope: Scope, i: nat, k: nat)
    requires Run(cfg, r) && x < |r| && i < |r[x].txs| && Manifested(r[x].txs[i].event) && InScope(r[x], r[x].txs[i].filing, scope)
    requires k < |r[x].txs[i].event.documents|
    ensures Verdict(i, Some(k), MetadataConsistent) in Verdicts(r[x], AuditRows(r[x], scope))
  {
    hide Run, Inv;
    var s := r[x];
    var row, rows := RowOf(i, s.txs[i]), AuditRows(s, scope);
    EveryReceiptConsistent(cfg, r, x, scope);
    RowListed(s, scope, 0, i);
    var n :| 0 <= n < |rows| && rows[n] == row;
    EntryListed(s, row, |row.manifest.value|, k);
    VerdictListed(s, rows, n, Judge(s, row, k, row.manifest.value[k]));
  }
}
