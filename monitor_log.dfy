/**
 * The two monitoring logs: bounded buffers of MONITOR_LOG_LENGTH entries
 * that drop the oldest entry when a new one arrives on a full buffer.
 */
module MonitorLog {
  import opened Messages

  const MONITOR_LOG_LENGTH: nat := 16

  /** The text logged for an outbound message: the debug form of its payload. */
  datatype LogEntry =
    | NoteEntry(note: NotePayload)
    | ControlChangeEntry(cc: ControlChangePayload)
    | KnobEntry(knob: KnobPayload)

  /** `push_back` on a full circular buffer evicts the front entry. */
  function PushBack<T>(log: seq<T>, entry: T): (r: seq<T>)
    ensures 0 < |r| && r[|r| - 1] == entry
    ensures |log| <= MONITOR_LOG_LENGTH ==> |r| == if |log| < MONITOR_LOG_LENGTH then |log| + 1 else MONITOR_LOG_LENGTH
    // a log below capacity keeps every entry; a full one drops only its oldest
    ensures |log| <= MONITOR_LOG_LENGTH ==> r[..|r| - 1] == if |log| < MONITOR_LOG_LENGTH then log else log[1..]
  {
    if |log| < MONITOR_LOG_LENGTH then log + [entry] else log[1..] + [entry]
  }

  /** Pushes the entries one after another. */
  function PushAll<T>(log: seq<T>, entries: seq<T>): (r: seq<T>)
    ensures |log| <= MONITOR_LOG_LENGTH ==> |r| <= MONITOR_LOG_LENGTH
    decreases |entries|
  {
    if entries == [] then log else PushAll(PushBack(log, entries[0]), entries[1..])
  }

  /** The most recent MONITOR_LOG_LENGTH entries of a history, oldest first. */
  function Window<T>(history: seq<T>): (w: seq<T>)
    ensures |w| == if |history| < MONITOR_LOG_LENGTH then |history| else MONITOR_LOG_LENGTH
  {
    if |history| <= MONITOR_LOG_LENGTH then history else history[|history| - MONITOR_LOG_LENGTH..]
  }

  /** A log that holds the window of its history holds the window of the longer history after a push. */
  lemma PushBackWindow<T>(history: seq<T>, entry: T)
    ensures PushBack(Window(history), entry) == Window(history + [entry])
  {
    var h' := history + [entry];
    if |history| >= MONITOR_LOG_LENGTH {
      var w := Window(history);
      assert w[1..] + [entry] == h'[|h'| - MONITOR_LOG_LENGTH..];
    }
  }

  /**
   * A log filled from empty by any sequence of pushes holds exactly the last
   * MONITOR_LOG_LENGTH entries, in arrival order: older entries are evicted first.
   */
  lemma {:induction false} PushAllWindow<T>(history: seq<T>, entries: seq<T>)
    ensures PushAll(Window(history), entries) == Window(history + entries)
    decreases |entries|
  {
    if entries == [] {
      assert history + entries == history;
    } else {
      var longer := history + [entries[0]];
      calc {
        PushAll(Window(history), entries);
        PushAll(PushBack(Window(history), entries[0]), entries[1..]);
        { PushBackWindow(history, entries[0]); }
        PushAll(Window(longer), entries[1..]);
        { PushAllWindow(longer, entries[1..]); }
        Window(longer + entries[1..]);
        { assert longer + entries[1..] == history + entries; }
        Window(history + entries);
      }
    }
  }

  /** Pushing two batches one after the other is pushing their concatenation. */
  lemma {:induction false} PushAllConcat<T>(log: seq<T>, first: seq<T>, second: seq<T>)
    ensures PushAll(log, first + second) == PushAll(PushAll(log, first), second)
    decreases |first|
  {
    if first == [] {
      assert first + second == second;
    } else {
      assert (first + second)[1..] == first[1..] + second;
      PushAllConcat(PushBack(log, first[0]), first[1..], second);
    }
  }

  /** The tether log entry a sent message leaves. */
  function SummaryOf(m: TetherMidiMessage): (r: seq<LogEntry>)
    // a Raw message leaves no entry; every typed message leaves exactly one
    ensures |r| <= 1 && (r == [] <==> m.Raw?)
    // NoteOn and NoteOff with the same payload leave the same entry
    ensures m.NoteOn? || m.NoteOff? ==> r == [NoteEntry(m.payload)]
    ensures m.ControlChange? ==> r == [ControlChangeEntry(m.cc)]
    ensures m.Knob? ==> r == [KnobEntry(m.knob)]
  {
    match m
    case Raw(_) => []
    case NoteOn(p) => [NoteEntry(p)]
    case NoteOff(p) => [NoteEntry(p)]
    case ControlChange(p) => [ControlChangeEntry(p)]
    case Knob(p) => [KnobEntry(p)]
  }

  /** The log entries of the non-Raw messages of an outbound stream, in order. */
  function Summaries(out: seq<TetherMidiMessage>): (r: seq<LogEntry>)
    ensures (forall i :: 0 <= i < |out| ==> !out[i].Raw?) ==> |r| == |out|
  {
    if out == [] then [] else SummaryOf(out[0]) + Summaries(out[1..])
  }

  /** The summaries of a concatenated stream are the concatenated summaries. */
  lemma {:induction false} SummariesConcat(first: seq<TetherMidiMessage>, second: seq<TetherMidiMessage>)
    ensures Summaries(first + second) == Summaries(first) + Summaries(second)
    decreases |first|
  {
    if first == [] {
      assert first + second == second;
    } else {
      assert (first + second)[1..] == first[1..] + second;
      SummariesConcat(first[1..], second);
    }
  }

  /** A stream without Raw messages leaves one entry per message, the one SummaryOf gives, in order. */
  lemma {:induction false} SummariesOfTyped(out: seq<TetherMidiMessage>)
    requires forall i :: 0 <= i < |out| ==> !out[i].Raw?
    ensures |Summaries(out)| == |out|
    ensures forall i :: 0 <= i < |out| ==> [Summaries(out)[i]] == SummaryOf(out[i])
    decreases |out|
  {
    if out != [] {
      SummariesOfTyped(out[1..]);
      var r := Summaries(out);
      assert r == SummaryOf(out[0]) + Summaries(out[1..]);
      forall i | 0 <= i < |out|
        ensures [r[i]] == SummaryOf(out[i])
      {
        if i > 0 {
          assert r[i] == Summaries(out[1..])[i - 1];
          assert out[i] == out[1..][i - 1];
        }
      }
    }
  }

  /** Raw messages leave no entry in the tether log. */
  lemma {:induction false} SummariesOfRaw(out: seq<TetherMidiMessage>)
    requires forall i :: 0 <= i < |out| ==> out[i].Raw?
    ensures Summaries(out) == []
    decreases |out|
  {
    if out != [] {
      SummariesOfRaw(out[1..]);
    }
  }
}
