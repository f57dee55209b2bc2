/**
 * The continuous-learning loop of the server: every analysed message is
 * stored as a labelled row in the pending file; at the threshold the pending
 * rows are merged into the training corpus and the classifier is retrained,
 * saved and reloaded. The two CSV files are sequences of rows, and where the
 * classifier's training, saving and loading raise is an input.
 */
module Learning {
  import opened Strings

  const RetrainThreshold: int := 20
  const MaxTextLength: nat := 500

  /** A row of the pending file (its timestamp is left out). */
  datatype PendingRow = PendingRow(text: string, fraudLabel: int, threatType: string, score: int)

  /** A row of the training corpus: the pending row's first three columns. */
  datatype CorpusRow = CorpusRow(text: string, fraudLabel: int, threatType: string)

  /** The stored label: 1 (fraud) from a score of 50, else 0. */
  function LabelFor(score: int): (r: int)
    ensures r == 0 || r == 1
    ensures r == 1 <==> score >= 50
  {
    if score >= 50 then 1 else 0
  }

  /** The English code of each Arabic threat type the rule scorer produces. */
  const ThreatCodes: map<string, string> := map[
    "احتيال اجتماعي" := "social_engineering",
    "انتحال صفة بنك" := "bank_impersonation",
    "جوائز وهمية" := "fake_prize",
    "تصيد احتيالي" := "phishing",
    "طلب تحويل مشبوه" := "money_transfer",
    "رسالة عادية" := "safe"]

  const UnknownThreat: string := "unknown"

  /** `threat_map.get(threat_type, "unknown")` */
  function ThreatCode(threatType: string): (r: string)
    ensures threatType in ThreatCodes ==> r == ThreatCodes[threatType]
    ensures threatType !in ThreatCodes ==> r == UnknownThreat
  {
    if threatType in ThreatCodes then ThreatCodes[threatType] else UnknownThreat
  }

  /**
   * The code is one of the seven fixed codes; it is `unknown` exactly for the
   * threat types outside the table, and `safe` exactly for the ordinary message.
   */
  lemma ThreatCodeIsKnownOrUnknown(threatType: string)
    ensures var r := ThreatCode(threatType);
      r in {"social_engineering", "bank_impersonation", "fake_prize", "phishing", "money_transfer", "safe", "unknown"}
    ensures ThreatCode(threatType) == UnknownThreat <==> threatType !in ThreatCodes
    ensures ThreatCode(threatType) == "safe" <==> threatType == "رسالة عادية"
  {
    assert UnknownThreat !in ThreatCodes.Values;
    if threatType in ThreatCodes && ThreatCode(threatType) == "safe" {
      assert ThreatCodes["احتيال اجتماعي"] != "safe";
    }
  }

  /** `s` with every occurrence of `c` replaced by `d` (`str.replace` on one character). */
  function ReplaceChar(s: string, c: char, d: char): (r: string)
    ensures |r| == |s|
    ensures forall i :: 0 <= i < |s| ==> r[i] == if s[i] == c then d else s[i]
  {
    seq(|s|, i requires 0 <= i < |s| => if s[i] == c then d else s[i])
  }

  /** The stored text: line feeds and carriage returns turned into spaces, then cut to 500 characters. */
  function CleanText(text: string): (r: string)
    ensures NoLineBreak(r)
    ensures |r| == if |text| <= MaxTextLength then |text| else MaxTextLength
    ensures forall i :: 0 <= i < |r| ==> r[i] == if IsLineBreak(text[i]) then ' ' else text[i]
  {
    Take(ReplaceChar(ReplaceChar(text, '\n', ' '), '\r', ' '), MaxTextLength)
  }

  /** Cleaning a cleaned text changes nothing. */
  lemma CleanTextIsIdempotent(text: string)
    ensures CleanText(CleanText(text)) == CleanText(text)
  {
    var once := CleanText(text);
    var twice := CleanText(once);
    assert |twice| == |once|;
    assert forall i :: 0 <= i < |once| ==> twice[i] == once[i];
  }

  /** The row `save_email_for_learning` appends. */
  function RowFor(text: string, score: int, threatType: string): PendingRow {
    PendingRow(CleanText(text), LabelFor(score), ThreatCode(threatType), score)
  }

  function ToCorpus(r: PendingRow): CorpusRow {
    CorpusRow(r.text, r.fraudLabel, r.threatType)
  }

  /** The number of line breaks in `s`. */
  function BreakCount(s: string): nat {
    if s == [] then 0 else BreakCount(s[..|s| - 1]) + (if IsLineBreak(s[|s| - 1]) then 1 else 0)
  }

  /** The lines a row takes in the file: one, plus one per line break inside its text. */
  function RowLines(r: PendingRow): nat {
    1 + BreakCount(r.text)
  }

  /** The lines of a pending file holding `rows`: the header, then the rows. */
  function FileLines(rows: seq<PendingRow>): nat {
    if rows == [] then 1 else FileLines(rows[..|rows| - 1]) + RowLines(rows[|rows| - 1])
  }

  predicate CleanRows(rows: seq<PendingRow>) {
    forall i :: 0 <= i < |rows| ==> NoLineBreak(rows[i].text)
  }

  lemma {:induction false} NoBreaksCounted(s: string)
    requires NoLineBreak(s)
    ensures BreakCount(s) == 0
    decreases |s|
  {
    if s != [] {
      NoBreaksCounted(s[..|s| - 1]);
    }
  }

  /** With one line per row, the file has one line more than it has rows. */
  lemma {:induction false} CleanFileLines(rows: seq<PendingRow>)
    requires CleanRows(rows)
    ensures FileLines(rows) == |rows| + 1
    decreases |rows|
  {
    if rows != [] {
      CleanFileLines(rows[..|rows| - 1]);
      NoBreaksCounted(rows[|rows| - 1].text);
    }
  }

  /** `learning_status`'s count: the pending file's lines minus the header, at least 0; 0 without the file. */
  function StatusCount(pendingExists: bool, pending: seq<PendingRow>): nat {
    if pendingExists && FileLines(pending) >= 1 then FileLines(pending) - 1 else 0
  }

  /** With clean rows the count is the number of pending rows. */
  lemma StatusCountIsPendingRows(pendingExists: bool, pending: seq<PendingRow>)
    requires pendingExists || pending == []
    requires CleanRows(pending)
    ensures StatusCount(pendingExists, pending) == |pending|
  {
    CleanFileLines(pending);
  }

  /**
   * Where the retrain raises, if anywhere: the merge, training, saving or
   * loading step, or nowhere. A missing model file makes loading return
   * false without raising.
   */
  datatype RetrainOutcome = MergeFails | TrainFails | SaveFails | LoadRaises | LoadMissing | AllSucceed

  /** The retrain reports success when no step raised. */
  predicate Succeeds(o: RetrainOutcome) {
    o == LoadMissing || o == AllSucceed
  }

  /** The state of the learning loop: the global counter, the two data files and the classifier's flag. */
  class Learner {
    var newEmailsCount: int
    var pendingExists: bool
    var pending: seq<PendingRow>
    var corpus: seq<CorpusRow>
    var modelTrained: bool

    /** No pending rows without a pending file. */
    predicate Valid()
      reads this
    {
      pendingExists || pending == []
    }

    /** The server's start: the counter is 0; the files and the loaded classifier are whatever is on disk. */
    constructor (pendingFile: bool, pendingRows: seq<PendingRow>, corpusRows: seq<CorpusRow>, loaded: bool)
      requires pendingFile || pendingRows == []
      ensures Valid()
      ensures newEmailsCount == 0 && pendingExists == pendingFile && pending == pendingRows
      ensures corpus == corpusRows && modelTrained == loaded
    {
      newEmailsCount := 0;
      pendingExists := pendingFile;
      pending := pendingRows;
      corpus := corpusRows;
      modelTrained := loaded;
    }

    /**
     * `merge_training_data`: without a pending file nothing happens;
     * otherwise the corpus gains the pending rows, in order, projected to
     * three columns, and the pending file is removed.
     */
    method MergeTrainingData()
      requires Valid()
      modifies this
      ensures Valid()
      ensures corpus == old(corpus) + MapSeq(ToCorpus, old(pending))
      ensures !pendingExists && pending == []
      ensures newEmailsCount == old(newEmailsCount) && modelTrained == old(modelTrained)
    {
      if !pendingExists {
        return;
      }
      var newRows: seq<CorpusRow> := [];
      var i := 0;
      while i < |pending|
        invariant 0 <= i <= |pending|
        invariant newRows == MapSeq(ToCorpus, pending[..i])
        invariant unchanged(this)
      {
        assert pending[..i + 1][..i] == pending[..i];
        newRows := newRows + [ToCorpus(pending[i])];
        i := i + 1;
      }
      assert pending[..i] == pending;
      var j := 0;
      ghost var before := corpus;
      while j < |newRows|
        invariant 0 <= j <= |newRows|
        invariant corpus == before + newRows[..j]
        invariant newEmailsCount == old(newEmailsCount) && modelTrained == old(modelTrained)
        invariant pendingExists == old(pendingExists) && pending == old(pending)
      {
        corpus := corpus + [newRows[j]];
        j := j + 1;
        assert newRows[..j] == newRows[..j - 1] + [newRows[j - 1]];
      }
      assert newRows[..j] == newRows;
      pendingExists, pending := false, [];
    }

    /**
     * `auto_retrain`: merge, train, save, reload. Only a retrain in which no
     * step raised resets the counter and reports success. The merge happens
     * first, so a later failure still leaves the pending rows in the corpus;
     * training sets the trained flag before saving.
     */
    method AutoRetrain(outcome: RetrainOutcome) returns (ok: bool)
      requires Valid()
      modifies this
      ensures Valid()
      ensures ok <==> Succeeds(outcome)
      ensures newEmailsCount == if ok then 0 else old(newEmailsCount)
      ensures outcome == MergeFails ==> corpus == old(corpus) && pendingExists == old(pendingExists) && pending == old(pending)
      ensures outcome != MergeFails ==> corpus == old(corpus) + MapSeq(ToCorpus, old(pending)) && !pendingExists && pending == []
      ensures modelTrained == if outcome == MergeFails || outcome == TrainFails then old(modelTrained) else true
    {
      if outcome == MergeFails {
        return false;
      }
      MergeTrainingData();
      if outcome == TrainFails {
        return false;
      }
      modelTrained := true;
      if outcome == SaveFails || outcome == LoadRaises {
        return false;
      }
      newEmailsCount := 0;
      return true;
    }

    /**
     * `save_email_for_learning`: append the cleaned, labelled row (creating
     * the file if needed), count it, and attempt a retrain once the count
     * reaches the threshold.
     */
    method SaveEmailForLearning(text: string, score: int, threatType: string, outcome: RetrainOutcome)
      requires Valid()
      modifies this
      ensures Valid()
      ensures var rows := old(pending) + [RowFor(text, score, threatType)];
        if old(newEmailsCount) + 1 < RetrainThreshold then
          && newEmailsCount == old(newEmailsCount) + 1
          && pendingExists && pending == rows
          && corpus == old(corpus) && modelTrained == old(modelTrained)
        else
          && newEmailsCount == (if Succeeds(outcome) then 0 else old(newEmailsCount) + 1)
          && (outcome == MergeFails ==> pendingExists && pending == rows && corpus == old(corpus))
          && (outcome != MergeFails ==> !pendingExists && pending == [] && corpus == old(corpus) + MapSeq(ToCorpus, rows))
          && modelTrained == (if outcome == MergeFails || outcome == TrainFails then old(modelTrained) else true)
    {
      var row := RowFor(text, score, threatType);
      pendingExists := true;
      pending := pending + [row];
      newEmailsCount := newEmailsCount + 1;
      if newEmailsCount >= RetrainThreshold {
        var _ := AutoRetrain(outcome);
      }
    }

    /** The `new_emails_count` field of `learning_status`. */
    function LearningCount(): (n: nat)
      reads this
      ensures Valid() && CleanRows(pending) ==> n == |pending|
    {
      if Valid() && CleanRows(pending) then StatusCountIsPendingRows(pendingExists, pending); StatusCount(pendingExists, pending)
      else StatusCount(pendingExists, pending)
    }
  }

  /** Every row the loop stores is clean: no line break and at most 500 characters. */
  lemma StoredRowsAreClean(rows: seq<PendingRow>, text: string, score: int, threatType: string)
    requires CleanRows(rows)
    ensures CleanRows(rows + [RowFor(text, score, threatType)])
    ensures |RowFor(text, score, threatType).text| <= MaxTextLength
  {
  }
}
