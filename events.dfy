/**
 * The scanner session states and the table that maps media-element
 * lifecycle events to them (`eventState` in src/hooks/useScanner.tsx and
 * src/hooks/index.ts; both revisions hold the same five entries).
 */
module Events {
  import opened Wrappers

  /** `ScannerState` of src/types/index.ts. */
  datatype ScannerState = LOADING | PLAYING | PAUSED | STOPPED

  /** The `type` of an event an HTMLVideoElement dispatches. */
  datatype EventType = Play | Playing | Pause | Emptied | LoadedMetadata | Resize | Other(name: string)

  /** The keys of the `eventState` table. */
  const StateEvents: set<EventType> := {Play, Playing, Pause, Emptied, LoadedMetadata}

  /** `eventState[type]`: the state an event announces, or `undefined` when the type is not a key. */
  function EventState(e: EventType): (r: Option<ScannerState>)
    ensures r.Some? <==> e in StateEvents
    ensures r == Some(PLAYING) <==> e == Playing || e == LoadedMetadata
    ensures r == Some(LOADING) <==> e == Play
    ensures r == Some(PAUSED) <==> e == Pause
    ensures r == Some(STOPPED) <==> e == Emptied
  {
    match e
    case Play => Some(LOADING)
    case Playing => Some(PLAYING)
    case Pause => Some(PAUSED)
    case Emptied => Some(STOPPED)
    case LoadedMetadata => Some(PLAYING)
    case _ => None
  }

  /** Every session state is announced by at least one of the registered lifecycle events. */
  lemma EveryStateIsAnnounced(s: ScannerState)
    ensures exists e :: e in StateEvents && EventState(e) == Some(s)
  {
    match s
    case LOADING => assert EventState(Play) == Some(s);
    case PLAYING => assert EventState(Playing) == Some(s);
    case PAUSED => assert EventState(Pause) == Some(s);
    case STOPPED => assert EventState(Emptied) == Some(s);
  }
}
