/**
 * The terminal dashboard's state (`src/ui.py`): one entry per monitored user, in the order the
 * users were added, and the rows of the streams table projected from it. The clock is an input;
 * the rendering itself is not modelled.
 */
module Ui {
  import opened Wrappers
  import opened Dicts
  import opened Clock

  datatype UserState = UserState(status: string, recording: bool, lastUpdate: DateTime, currentFile: Option<string>)

  /** One row of the table: user, status, the live marker, the file (or `-`) and `%H:%M:%S`. */
  datatype Row = Row(username: string, status: string, live: bool, currentFile: string, lastUpdate: string)

  type States = Dict<string, UserState>

  /** The entry `add_user` writes. */
  function InitialState(now: DateTime): UserState {
    UserState("Initializing...", false, now, None)
  }

  /** The entry after `update_user`: `recording` and `current_file` change only when given. */
  function Updated(s: UserState, status: string, recording: Option<bool>, currentFile: Option<string>, now: DateTime): (r: UserState)
    ensures r.status == status && r.lastUpdate == now
    ensures r.recording == recording.GetOr(s.recording)
    ensures r.currentFile == if currentFile.Some? then currentFile else s.currentFile
  {
    UserState(status, recording.GetOr(s.recording), now, if currentFile.Some? then currentFile else s.currentFile)
  }

  /** `user_states` after `update_user`: unknown users are ignored. */
  function UpdateIn(states: States, username: string, status: string, recording: Option<bool>,
                    currentFile: Option<string>, now: DateTime): States
  {
    match Get(states, username)
    case None => states
    case Some(s) => Set(states, username, Updated(s, status, recording, currentFile, now))
  }

  /** `add_user` (re)starts the user's entry and leaves every other user's alone. */
  lemma AddUserEffect(states: States, username: string, now: DateTime, other: string)
    ensures Get(Set(states, username, InitialState(now)), username) == Some(InitialState(now))
    ensures other != username ==> Get(Set(states, username, InitialState(now)), other) == Get(states, other)
  {
    GetSet(states, username, InitialState(now), username);
    GetSet(states, username, InitialState(now), other);
  }

  /**
   * `update_user` changes nothing for an unknown user; for a known one it sets the status and
   * the time, the flag and the file only when given; other users are left alone.
   */
  lemma UpdateUserEffect(states: States, username: string, status: string, recording: Option<bool>,
                         currentFile: Option<string>, now: DateTime, other: string)
    ensures username !in Keys(states) ==> UpdateIn(states, username, status, recording, currentFile, now) == states
    ensures username in Keys(states) ==>
      var after := Get(UpdateIn(states, username, status, recording, currentFile, now), username);
      var before := Get(states, username).value;
      after.Some? && after.value.status == status && after.value.lastUpdate == now
      && after.value.recording == (if recording.Some? then recording.value else before.recording)
      && after.value.currentFile == (if currentFile.Some? then currentFile else before.currentFile)
    ensures other != username ==> Get(UpdateIn(states, username, status, recording, currentFile, now), other) == Get(states, other)
    ensures Keys(UpdateIn(states, username, status, recording, currentFile, now)) == Keys(states)
  {
    var s := Get(states, username);
    if s.Some? {
      var u := Updated(s.value, status, recording, currentFile, now);
      GetSet(states, username, u, username);
      GetSet(states, username, u, other);
      KeysSet(states, username, u);
    }
  }

  /** Once a user has a current file, no `update_user` call takes it away. */
  lemma CurrentFileNeverCleared(states: States, username: string, status: string, recording: Option<bool>,
                                currentFile: Option<string>, now: DateTime)
    requires Get(states, username).Some? && Get(states, username).value.currentFile.Some?
    ensures var after := Get(UpdateIn(states, username, status, recording, currentFile, now), username);
      after.Some? && after.value.currentFile.Some?
  {
    UpdateUserEffect(states, username, status, recording, currentFile, now, username);
  }

  /** The table row of one entry. */
  function RowOf(username: string, s: UserState): Row {
    Row(username, s.status, s.recording,
        if s.currentFile.None? || s.currentFile.value == "" then "-" else s.currentFile.value,
        ClockTime(s.lastUpdate))
  }

  function Rows(states: States): (r: seq<Row>)
    ensures |r| == |states|
    ensures forall i :: 0 <= i < |states| ==> r[i] == RowOf(states[i].0, states[i].1)
  {
    if states == [] then [] else [RowOf(states[0].0, states[0].1)] + Rows(states[1..])
  }

  /** One row per user, in insertion order; a missing or empty file shows as `-`. */
  lemma RowsProjection(states: States, i: int)
    requires 0 <= i < |states|
    ensures |Rows(states)| == |states|
    ensures Rows(states)[i].username == states[i].0 && Rows(states)[i].status == states[i].1.status
    ensures Rows(states)[i].live == states[i].1.recording
    ensures states[i].1.currentFile.None? || states[i].1.currentFile == Some("") ==> Rows(states)[i].currentFile == "-"
    ensures states[i].1.currentFile.Some? && states[i].1.currentFile != Some("") ==> Rows(states)[i].currentFile == states[i].1.currentFile.value
  {
  }

  class MonitorUI {
    var states: States

    constructor ()
      ensures states == []
    {
      states := [];
    }

    /** `add_user(username)`. */
    method AddUser(username: string, now: DateTime)
      modifies this
      ensures states == Set(old(states), username, InitialState(now))
    {
      states := Set(states, username, InitialState(now));
    }

    /** `update_user(username, status, recording, current_file)`; `None` leaves a field alone. */
    method UpdateUser(username: string, status: string, recording: Option<bool>, currentFile: Option<string>, now: DateTime)
      modifies this
      ensures states == UpdateIn(old(states), username, status, recording, currentFile, now)
    {
      var s := Get(states, username);
      if s.Some? {
        var st := s.value;
        st := st.(status := status, lastUpdate := now);
        if recording.Some? {
          st := st.(recording := recording.value);
        }
        if currentFile.Some? {
          st := st.(currentFile := currentFile);
        }
        states := Set(states, username, st);
      }
    }

    /** The rows of `generate_streams_table`: one per user, in the order users were added. */
    method StreamsTable() returns (rows: seq<Row>)
      ensures rows == Rows(states)
    {
      rows := [];
      var i := 0;
      while i < |states|
        invariant 0 <= i <= |states| && |rows| == i
        invariant forall k :: 0 <= k < i ==> rows[k] == RowOf(states[k].0, states[k].1)
      {
        var (username, state) := states[i];
        var currentFile := if state.currentFile.None? || state.currentFile.value == "" then "-" else state.currentFile.value;
        var row := Row(username, state.status, state.recording, currentFile, ClockTime(state.lastUpdate));
        assert row == RowOf(states[i].0, states[i].1);
        rows := rows + [row];
        i := i + 1;
      }
      assert forall k :: 0 <= k < |rows| ==> rows[k] == Rows(states)[k];
    }
  }
}
