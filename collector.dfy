/** The training-data collector: after a warm-up of START_THRESHOLD discarded
    readings it appends every reading to ten per-channel CSV files, in rows of
    TIMESTEPS values, with one label line per completed row, until
    DATA_POINTS values per channel have been written. */
module Collection {
  import opened Window
  import opened Buffers
  import opened Csv

  const TIMESTEPS := 5
  const DATA_POINTS := 2000
  const START_THRESHOLD := 5
  /** The gesture being recorded ('0' is Idle). */
  const LABEL := "0"

  /** The label file after `n` values per channel: one line per full row. */
  function LabelLines(n: nat): (r: seq<string>)
    ensures |r| == n / TIMESTEPS && forall i :: 0 <= i < |r| ==> r[i] == LABEL
  {
    seq(n / TIMESTEPS, _ => LABEL)
  }

  /** Appending one value per channel either completes a row, and the label
      file gains one line, or leaves the label file as it was. */
  lemma LabelLinesStep(prior: seq<string>, n: nat)
    ensures n % TIMESTEPS == TIMESTEPS - 1 ==> prior + LabelLines(n) + [LABEL] == prior + LabelLines(n + 1)
    ensures n % TIMESTEPS != TIMESTEPS - 1 ==> LabelLines(n + 1) == LabelLines(n)
  {
    ModStep(n, TIMESTEPS);
    if n % TIMESTEPS == TIMESTEPS - 1 {
      assert LabelLines(n) + [LABEL] == LabelLines(n + 1);
    }
  }

  /** Appending a cell to a file that holds `prior` followed by rows. */
  lemma AppendAfterPrior<T>(prior: seq<Cell<T>>, rows: seq<Cell<T>>, cell: Cell<T>, next: seq<Cell<T>>)
    requires rows + [cell] == next
    ensures prior + rows + [cell] == prior + next
  {
  }

  /** Once DATA_POINTS values per channel are written after whatever the files
      held before, every file ends on a complete row. */
  lemma FilesEndOnRow(files: map<Channel, seq<Cell<real>>>, prior: map<Channel, seq<Cell<real>>>, written: seq<Sample<real>>)
    requires |written| == DATA_POINTS && AllWellFormed(written)
    requires forall c :: c in files && c in prior && files[c] == prior[c] + Rows(ChannelOf(written, c), TIMESTEPS)
    ensures forall c :: |files[c]| == |prior[c]| + DATA_POINTS && files[c][|prior[c]| + DATA_POINTS - 1].endsRow
  {
    forall c ensures |files[c]| == |prior[c]| + DATA_POINTS && files[c][|prior[c]| + DATA_POINTS - 1].endsRow {
      var rows := Rows(ChannelOf(written, c), TIMESTEPS);
      RowsComplete(ChannelOf(written, c), TIMESTEPS);
      assert files[c][|prior[c]| + DATA_POINTS - 1] == rows[DATA_POINTS - 1];
    }
  }

  class Collector {
    var usefulData: nat
    var valCount: nat
    var writeCount: nat
    /** The ten channel files, keyed by channel. */
    var files: map<Channel, seq<Cell<real>>>
    /** The label file. */
    var labels: seq<string>
    /** Every reading written so far, in order. */
    ghost var Written: seq<Sample<real>>
    /** What the files held when this run opened them (they are opened for
        appending, so an earlier run's rows stay in front). */
    ghost const Prior: map<Channel, seq<Cell<real>>>
    ghost const PriorLabels: seq<string>

    ghost predicate Valid()
      reads this
    {
      && AllWellFormed(Written)
      && usefulData <= START_THRESHOLD + 1
      && (Written != [] ==> usefulData == START_THRESHOLD + 1)
      && writeCount == |Written|
      && valCount == |Written| % TIMESTEPS
      && (forall c :: c in files && c in Prior && files[c] == Prior[c] + Rows(ChannelOf(Written, c), TIMESTEPS))
      && labels == PriorLabels + LabelLines(|Written|)
    }

    /** Opens the eleven files for appending: `prior` and `priorLabels` are
        what earlier runs left in them (a channel missing from `prior` has no
        file yet, which opening in append mode creates empty). */
    constructor (prior: map<Channel, seq<Cell<real>>>, priorLabels: seq<string>)
      ensures Valid() && Written == [] && usefulData == 0
      ensures forall c :: c in Prior && Prior[c] == (if c in prior then prior[c] else [])
      ensures PriorLabels == priorLabels && files == Prior && labels == priorLabels
    {
      usefulData := 0;
      valCount := 0;
      writeCount := 0;
      files := map c | c in TRAINED_ORDER :: if c in prior then prior[c] else [];
      labels := priorLabels;
      Written := [];
      Prior := map c | c in TRAINED_ORDER :: if c in prior then prior[c] else [];
      PriorLabels := priorLabels;
      new;
      forall c: Channel ensures c in files {
        assert TRAINED_ORDER[TrainedPosition(c)] == c;
      }
    }

    /** One pass of the collection loop on one reading: discarded while
        warming up, otherwise one value appended to each channel file. */
    method Step(s: Sample<real>)
      requires Valid() && WellFormed(s)
      modifies this
      ensures Valid()
      ensures usefulData == if old(usefulData) <= START_THRESHOLD then old(usefulData) + 1 else old(usefulData)
      ensures old(usefulData) < START_THRESHOLD ==> Written == old(Written)
      ensures old(usefulData) >= START_THRESHOLD ==> Written == old(Written) + [s]
      ensures valCount < TIMESTEPS
      ensures old(usefulData) >= START_THRESHOLD ==>
                writeCount == old(writeCount) + 1
                && (valCount == 0 <==> labels == old(labels) + [LABEL])
                && (valCount != 0 <==> labels == old(labels))
    {
      if usefulData < START_THRESHOLD {
        usefulData := usefulData + 1;
        return;
      } else if usefulData == START_THRESHOLD {
        usefulData := usefulData + 1;
      }
      ghost var before := Written;
      ChannelOfAppendAll(before, s);
      forall c ensures files[c] + [WriteCell(valCount, TIMESTEPS, Field(c, s)).0]
                       == Prior[c] + Rows(ChannelOf(before + [s], c), TIMESTEPS) {
        WriteCellKeepsRows(ChannelOf(before, c), TIMESTEPS, valCount, Field(c, s));
        AppendAfterPrior(Prior[c], Rows(ChannelOf(before, c), TIMESTEPS), WriteCell(valCount, TIMESTEPS, Field(c, s)).0,
                         Rows(ChannelOf(before + [s], c), TIMESTEPS));
      }
      LabelLinesStep(PriorLabels, |before|);
      ModStep(|before|, TIMESTEPS);
      var ends := valCount == TIMESTEPS - 1;
      files := map c | c in files :: files[c] + [Cell(Field(c, s), ends)];
      if ends {
        labels := labels + [LABEL];
        valCount := 0;
      } else {
        valCount := valCount + 1;
      }
      writeCount := writeCount + 1;
      Written := before + [s];
    }

    /** The collection loop, fed a finite stream of readings. */
    method Run(readings: seq<Sample<real>>) returns (consumed: nat)
      requires Valid() && Written == [] && usefulData == 0
      requires AllWellFormed(readings)
      modifies this
      ensures Valid()
      ensures consumed <= |readings|
      ensures consumed <= START_THRESHOLD ==> Written == []
      ensures consumed > START_THRESHOLD ==> Written == readings[START_THRESHOLD..consumed]
      ensures writeCount <= DATA_POINTS
      ensures writeCount < DATA_POINTS ==> consumed == |readings|
      ensures writeCount == DATA_POINTS ==>
                valCount == 0 && |labels| == |PriorLabels| + DATA_POINTS / TIMESTEPS
                && forall c :: |files[c]| == |Prior[c]| + DATA_POINTS && files[c][|Prior[c]| + DATA_POINTS - 1].endsRow
    {
      consumed := 0;
      while writeCount < DATA_POINTS && consumed < |readings|
        invariant Valid()
        invariant consumed <= |readings|
        invariant writeCount <= DATA_POINTS
        invariant consumed <= START_THRESHOLD ==> usefulData == consumed && Written == []
        invariant consumed > START_THRESHOLD ==> Written == readings[START_THRESHOLD..consumed]
        decreases |readings| - consumed
      {
        assert WellFormed(readings[consumed]);
        Step(readings[consumed]);
        consumed := consumed + 1;
      }
      if writeCount == DATA_POINTS {
        FilesEndOnRow(files, Prior, Written);
      }
    }
  }
}
