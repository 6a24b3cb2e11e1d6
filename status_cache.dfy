/**
 * The process-wide map from a server's folder name to its last recorded
 * liveness. Reads default to "not running"; writes are unconditional
 * upserts, so the map holds at most one entry per folder and the last
 * completed write for a folder is the one that is read.
 */
module Statuses {

  /** One completed `insert` into the map. */
  datatype StatusWrite = StatusWrite(folder: string, running: bool)

  /** The value read for `folder`: its entry, or `false` when it has none. */
  function StatusOf(statuses: map<string, bool>, folder: string): bool
  {
    folder in statuses && statuses[folder]
  }

  /** The map after `writes` completed, in order of completion. */
  function Replay(statuses: map<string, bool>, writes: seq<StatusWrite>): map<string, bool>
  {
    if writes == [] then statuses
    else
      var last := writes[|writes| - 1];
      Replay(statuses, writes[..|writes| - 1])[last.folder := last.running]
  }

  class StatusCache {
    var statuses: map<string, bool>

    /** The map starts empty: every server is first reported as not running. */
    constructor ()
      ensures statuses == map[]
    {
      statuses := map[];
    }

    /** `get(folder).map(..).unwrap_or(false)`. */
    method Read(folder: string) returns (running: bool)
      ensures folder !in statuses ==> !running
      ensures folder in statuses ==> running == statuses[folder]
    {
      running := false;
      if folder in statuses {
        running := statuses[folder];
      }
    }

    /** `insert(folder, running)`: replaces or adds the folder's entry, and only it. */
    method Write(folder: string, running: bool)
      modifies this
      ensures statuses.Keys == old(statuses).Keys + {folder}
      ensures statuses[folder] == running
      ensures forall other :: other in old(statuses) && other != folder ==> statuses[other] == old(statuses)[other]
      ensures statuses == Replay(old(statuses), [StatusWrite(folder, running)])
    {
      statuses := statuses[folder := running];
    }
  }

  /**
   * Last completion wins: after any sequence of completed writes, the
   * value read for a folder is that of the last write to it.
   */
  lemma {:induction false} LastWriteWins(statuses: map<string, bool>, writes: seq<StatusWrite>, i: nat)
    requires i < |writes|
    requires forall j :: i < j < |writes| ==> writes[j].folder != writes[i].folder
    ensures StatusOf(Replay(statuses, writes), writes[i].folder) == writes[i].running
  {
    var n := |writes| - 1;
    if i < n {
      var init := writes[..n];
      assert init[i] == writes[i];
      forall j | i < j < n ensures init[j].folder != init[i].folder {
        assert init[j] == writes[j];
      }
      LastWriteWins(statuses, init, i);
    }
  }

  /**
   * Writes to other folders neither add nor change the entry of `folder`:
   * a folder nobody wrote still reads as its old value (`false` if it was
   * never written).
   */
  lemma {:induction false} UnwrittenFolderUnchanged(statuses: map<string, bool>, writes: seq<StatusWrite>, folder: string)
    requires forall j :: 0 <= j < |writes| ==> writes[j].folder != folder
    ensures folder in Replay(statuses, writes) <==> folder in statuses
    ensures StatusOf(Replay(statuses, writes), folder) == StatusOf(statuses, folder)
  {
    if writes != [] {
      var n := |writes| - 1;
      var init := writes[..n];
      forall j | 0 <= j < n ensures init[j].folder != folder {
        assert init[j] == writes[j];
      }
      UnwrittenFolderUnchanged(statuses, init, folder);
    }
  }
}
