/** The names TSDuck gives the counters in its line protocol. */
module CounterNames {
  import opened Common
  import opened Etr290

  function Text(n: Counter): string {
    match n
    case TsSyncLoss => "ts_sync_loss"
    case SyncByteError => "sync_byte_error"
    case PatError => "pat_error"
    case PatError2 => "pat_error_2"
    case ContinuityCountError => "continuity_count_error"
    case PmtError => "pmt_error"
    case PmtError2 => "pmt_error_2"
    case PidError => "pid_error"
    case PcrError => "pcr_error"
    case PcrRepetitionError => "pcr_repetition_error"
    case PcrDiscontinuityIndicatorError => "pcr_discontinuity_indicator_error"
    case TransportError => "transport_error"
    case CrcError => "crc_error"
    case CrcError2 => "crc_error_2"
    case PtsError => "pts_error"
    case CatError => "cat_error"
  }

  /** Enough of a name to tell it from the others. */
  function Mark(s: string): (nat, char, char, char) {
    (|s|, if |s| > 0 then s[0] else ' ', if |s| > 1 then s[1] else ' ', if |s| > 2 then s[2] else ' ')
  }

  function MarkOf(n: Counter): (nat, char, char, char) {
    match n
    case TsSyncLoss => (12, 't', 's', '_')
    case SyncByteError => (15, 's', 'y', 'n')
    case PatError => (9, 'p', 'a', 't')
    case PatError2 => (11, 'p', 'a', 't')
    case ContinuityCountError => (22, 'c', 'o', 'n')
    case PmtError => (9, 'p', 'm', 't')
    case PmtError2 => (11, 'p', 'm', 't')
    case PidError => (9, 'p', 'i', 'd')
    case PcrError => (9, 'p', 'c', 'r')
    case PcrRepetitionError => (20, 'p', 'c', 'r')
    case PcrDiscontinuityIndicatorError => (33, 'p', 'c', 'r')
    case TransportError => (15, 't', 'r', 'a')
    case CrcError => (9, 'c', 'r', 'c')
    case CrcError2 => (11, 'c', 'r', 'c')
    case PtsError => (9, 'p', 't', 's')
    case CatError => (9, 'c', 'a', 't')
  }

  lemma Marked(n: Counter)
    ensures Mark(Text(n)) == MarkOf(n)
  {
  }

  lemma MarksDiffer(a: Counter, b: Counter)
    requires MarkOf(a) == MarkOf(b)
    ensures a == b
  {
  }

  /** No two counters share a name. */
  lemma NamesDiffer()
    ensures forall a, b :: Text(a) == Text(b) ==> a == b
  {
    forall a, b | Text(a) == Text(b) ensures a == b {
      Marked(a);
      Marked(b);
      MarksDiffer(a, b);
    }
  }

  /** `name in ALL_P12_COUNTERS`, and which. */
  function NameOf(s: string): (n: Option<Counter>)
    ensures n.Some? ==> Text(n.value) == s
    ensures n.None? ==> forall m :: Text(m) != s
  {
    NamesDiffer();
    if exists m: Counter :: Text(m) == s then
      var m: Counter :| Text(m) == s;
      Some(m)
    else None
  }
}
