/** A server that stops and starts again: presence and reload together. */
module Restart {
  import opened Wrappers
  import opened Messages
  import SessionHistory
  import SessionModel
  import Safety = SessionSafety
  import Runs = SessionRuns
  import FiledHistory

  /** The file backed history of a session in any reachable state, its file complete and clean: the server
      stops and loads it again. Exactly one leave message is added for each client that was connected, and
      what is loaded is what a new session can start from. */
  method StopAndRestart(history: FiledHistory.FiledHistory, ghost s: SessionModel.Session, ghost events: seq<SessionModel.Event>)
    returns (ok: bool, left: seq<Byte>)
    requires history.Valid() && history.Clean()
    requires Runs.Init(s) && Runs.Runnable(s, events) && history.msgs == Runs.Run(s, events).hist.msgs
    requires !Runs.Run(s, events).deleted && !Runs.Run(s, events).seen.refused
    modifies history
    ensures history.Valid() && history.Clean() && history.firstIndex == 0
    ensures history.msgs == old(history.msgs) + FiledHistory.Leaves(left)
    ensures NoRepeats(left) && FiledHistory.Elements(left) == Safety.Ids(Runs.Run(s, events).clients)
    ensures SessionHistory.Coherent(history.Value()) && Present(history.msgs) == {}
    ensures ok == (history.msgs != [])
  {
    Runs.PresenceLog(s, events);
    ok, left := history.StopAndReload(history.recording, history.pos);
  }
}
