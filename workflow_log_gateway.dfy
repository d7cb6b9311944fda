/**
 * `WorkflowLogGateway`: the set of connected log sockets, `publish` with the
 * per-socket workflow filter (a socket whose send throws is dropped), and
 * `emitLogRecord`, which turns a logger record into a workflow log message.
 * Whether a socket's `send` throws, the message id (`randomUUID`) and
 * `toISOString` are parameters.
 */
module WorkflowLogGateway {
  import opened Optional
  import opened JsText
  import WorkflowDashboard

  /** A connected socket; `filter` is `socket.data.workflowId`. */
  class Socket {
    const filter: Option<string>

    constructor (filter: Option<string>)
      ensures this.filter == filter
    {
      this.filter := filter;
    }
  }

  /** `WorkflowLogMessage`. */
  datatype LogMessage = LogMessage(id: string, workflowId: Option<string>, workflowName: string, level: string, message: string, timestamp: string)

  /** `publish` skips a socket only when both it and the message name a workflow and the two differ. */
  predicate Receives(filter: Option<string>, workflowId: Option<string>) {
    !(Truthy(filter) && Truthy(workflowId) && filter.value != workflowId.value)
  }

  /** A socket without a filter receives every message; a message for no workflow reaches every socket. */
  lemma ReceivesWhenEitherUnset(filter: Option<string>, workflowId: Option<string>)
    ensures !Truthy(filter) ==> Receives(filter, workflowId)
    ensures !Truthy(workflowId) ==> Receives(filter, workflowId)
    ensures Truthy(filter) && Truthy(workflowId) ==> (Receives(filter, workflowId) <==> filter == workflowId)
  {
  }

  // ---------------------------------------------------------------------
  // emitLogRecord
  // ---------------------------------------------------------------------

  /** `record.category`: an array of names, a string, or absent. */
  datatype Category = CategoryParts(parts: seq<string>) | CategoryText(text: Option<string>)

  /** A logger record; `level` may be absent. */
  datatype LogRecord = LogRecord(level: Option<string>, category: Category, message: string, timestamp: int)

  /** The category as one string: array parts joined with '.', an absent category as "". */
  function CategoryString(c: Category): string {
    match c
    case CategoryParts(parts) => Join(parts, ".")
    case CategoryText(t) => t.GetOr("")
  }

  /** A record is for the workflow log when its category, lowercased, mentions "workflow". */
  predicate IsWorkflowCategory(category: string) {
    Contains(ToLower(category), "workflow")
  }

  /** `record.level?.toLowerCase() ?? "info"`: an empty level stays empty. */
  function LevelOf(level: Option<string>): string {
    if level.Some? then ToLower(level.value) else "info"
  }

  /** The first preset, in insertion order, whose id occurs in `category`. */
  function FirstContained(presets: seq<WorkflowDashboard.Preset>, category: string): (r: Option<nat>)
    ensures r.Some? ==> r.value < |presets| && Contains(category, presets[r.value].id)
    ensures r.Some? ==> forall j :: 0 <= j < r.value ==> !Contains(category, presets[j].id)
    ensures r.None? ==> forall j :: 0 <= j < |presets| ==> !Contains(category, presets[j].id)
  {
    if |presets| == 0 then None
    else if Contains(category, presets[0].id) then Some(0)
    else match FirstContained(presets[1..], category)
      case None => None
      case Some(i) => Some(i + 1)
  }

  /** The message `emitLogRecord` publishes, or `None` when it returns early. */
  function MessageFor(presets: seq<WorkflowDashboard.Preset>, record: LogRecord, id: string, toIso: int -> string): (m: Option<LogMessage>)
    ensures m.None? <==> !IsWorkflowCategory(CategoryString(record.category))
    ensures m.Some? ==>
      m.value.id == id && m.value.level == LevelOf(record.level) && m.value.message == record.message
      && m.value.timestamp == toIso(record.timestamp)
  {
    var category := CategoryString(record.category);
    if !IsWorkflowCategory(category) then None
    else
      var entry := FirstContained(presets, category);
      var workflowId := if entry.Some? then Some(presets[entry.value].id) else None;
      var workflowName := if entry.Some? then presets[entry.value].name else category;
      Some(LogMessage(id, workflowId, workflowName, LevelOf(record.level), record.message, toIso(record.timestamp)))
  }

  /**
   * The message names the first preset whose id occurs in the category, with
   * that preset's name; when none occurs it names no workflow and carries the
   * category itself as its name.
   */
  lemma MessageNamesFirstPreset(presets: seq<WorkflowDashboard.Preset>, record: LogRecord, id: string, toIso: int -> string)
    requires IsWorkflowCategory(CategoryString(record.category))
    ensures var m := MessageFor(presets, record, id, toIso).value;
      var category := CategoryString(record.category);
      (m.workflowId.None? <==> forall j :: 0 <= j < |presets| ==> !Contains(category, presets[j].id))
      && (m.workflowId.None? ==> m.workflowName == category)
      && (m.workflowId.Some? ==>
            exists k :: 0 <= k < |presets|
              && presets[k].id == m.workflowId.value && presets[k].name == m.workflowName
              && Contains(category, presets[k].id)
              && forall j :: 0 <= j < k ==> !Contains(category, presets[j].id))
  {
    var category := CategoryString(record.category);
    var entry := FirstContained(presets, category);
    if entry.Some? {
      var k := entry.value;
      assert presets[k].id == MessageFor(presets, record, id, toIso).value.workflowId.value;
    }
  }

  /** `t` occurring in `s` and `u` occurring in `t` means `u` occurs in `s`. */
  lemma ContainsTransitive(s: string, t: string, u: string)
    requires Contains(s, t) && Contains(t, u)
    ensures Contains(s, u)
  {
    var i :| 0 <= i <= |s| - |t| && OccursAt(s, t, i);
    var j :| 0 <= j <= |t| - |u| && OccursAt(t, u, j);
    forall k | 0 <= k < |u|
      ensures s[i + j + k] == u[k]
    {
      assert s[i..i + |t|][j + k] == t[j + k];
      assert t[j..j + |u|][k] == u[k];
    }
    assert s[i + j..i + j + |u|] == u;
    assert OccursAt(s, u, i + j);
  }

  /** Lowercasing keeps an occurrence of a text that is already lowercase. */
  lemma ContainsLowercase(s: string, t: string)
    requires Contains(s, t) && ToLower(t) == t
    ensures Contains(ToLower(s), t)
  {
    var i :| 0 <= i <= |s| - |t| && OccursAt(s, t, i);
    var ls := ToLower(s);
    assert ls[i..i + |t|] == t by {
      forall k | 0 <= k < |t| ensures ls[i..i + |t|][k] == t[k] {
        assert s[i + k] == t[k];
        assert ToLower(t)[k] == LowerChar(t[k]);
      }
    }
    assert OccursAt(ls, t, i);
  }

  lemma WorkflowIsLowercase()
    ensures ToLower("workflow") == "workflow"
  {
    var w := "workflow";
    assert forall i :: 0 <= i < |w| ==> !('A' <= w[i] <= 'Z');
    assert forall i :: 0 <= i < |w| ==> ToLower(w)[i] == w[i];
  }

  /** A record whose category names one of the enum's workflow ids is always published. */
  lemma WorkflowIdCategoryPublished(presets: seq<WorkflowDashboard.Preset>, record: LogRecord, id: string, toIso: int -> string, k: nat)
    requires k < |presets| && Contains(presets[k].id, "workflow")
    requires Contains(CategoryString(record.category), presets[k].id)
    ensures MessageFor(presets, record, id, toIso).Some?
    ensures MessageFor(presets, record, id, toIso).value.workflowId.Some?
  {
    var category := CategoryString(record.category);
    ContainsTransitive(category, presets[k].id, "workflow");
    WorkflowIsLowercase();
    ContainsLowercase(category, "workflow");
    assert IsWorkflowCategory(category);
    assert FirstContained(presets, category).Some?;
  }

  /** The sockets of `s` the payload reaches: let through by the filter, and `send` does not throw. */
  function Reached(s: set<Socket>, workflowId: Option<string>, sendThrows: Socket -> bool): set<Socket> {
    set x | x in s && Receives(x.filter, workflowId) && !sendThrows(x)
  }

  /** The sockets of `s` that `publish` removes: let through by the filter, and `send` throws. */
  function Failing(s: set<Socket>, workflowId: Option<string>, sendThrows: Socket -> bool): set<Socket> {
    set x | x in s && Receives(x.filter, workflowId) && sendThrows(x)
  }

  /** Visiting one more socket adds it to exactly the set its filter and send decide. */
  lemma ReachedStep(visited: set<Socket>, x: Socket, workflowId: Option<string>, sendThrows: Socket -> bool)
    ensures Reached(visited + {x}, workflowId, sendThrows)
      == Reached(visited, workflowId, sendThrows) + (if Receives(x.filter, workflowId) && !sendThrows(x) then {x} else {})
    ensures Failing(visited + {x}, workflowId, sendThrows)
      == Failing(visited, workflowId, sendThrows) + (if Receives(x.filter, workflowId) && sendThrows(x) then {x} else {})
  {
  }

  /** A message reaches and drops disjoint sets of sockets, which together are those its filter lets through. */
  lemma PublishPartitions(s: set<Socket>, workflowId: Option<string>, sendThrows: Socket -> bool)
    ensures Reached(s, workflowId, sendThrows) !! Failing(s, workflowId, sendThrows)
    ensures Reached(s, workflowId, sendThrows) + Failing(s, workflowId, sendThrows)
      == set x | x in s && Receives(x.filter, workflowId)
  {
  }

  class Gateway {
    var sockets: set<Socket>

    constructor ()
      ensures sockets == {}
    {
      sockets := {};
    }

    /** `addSocket`: a set insertion, so adding twice is adding once. */
    method AddSocket(ws: Socket)
      modifies this
      ensures sockets == old(sockets) + {ws}
    {
      sockets := sockets + {ws};
    }

    /** `removeSocket`: removing an absent socket changes nothing. */
    method RemoveSocket(ws: Socket)
      modifies this
      ensures sockets == old(sockets) - {ws}
    {
      sockets := sockets - {ws};
    }

    /**
     * `publish`: every socket the filter lets through is sent the payload;
     * one whose send throws is removed, and the loop goes on with the rest.
     * `delivered` is the set of sockets the payload reached.
     */
    method Publish(message: LogMessage, sendThrows: Socket -> bool) returns (delivered: set<Socket>)
      modifies this
      ensures delivered == Reached(old(sockets), message.workflowId, sendThrows)
      ensures sockets == old(sockets) - Failing(old(sockets), message.workflowId, sendThrows)
    {
      var remaining := sockets;
      ghost var visited: set<Socket> := {};
      delivered := {};
      while remaining != {}
        invariant visited + remaining == old(sockets) && visited !! remaining
        invariant delivered == Reached(visited, message.workflowId, sendThrows)
        invariant sockets == old(sockets) - Failing(visited, message.workflowId, sendThrows)
        decreases remaining
      {
        var socket :| socket in remaining;
        ReachedStep(visited, socket, message.workflowId, sendThrows);
        remaining := remaining - {socket};
        visited := visited + {socket};
        if Receives(socket.filter, message.workflowId) {
          if sendThrows(socket) {
            sockets := sockets - {socket};
          } else {
            delivered := delivered + {socket};
          }
        }
      }
    }

    /** `emitLogRecord`: publish the derived message, or nothing for a record outside the workflow log. */
    method EmitLogRecord(presets: seq<WorkflowDashboard.Preset>, record: LogRecord, id: string, toIso: int -> string,
                         sendThrows: Socket -> bool)
      returns (published: Option<LogMessage>, delivered: set<Socket>)
      modifies this
      ensures published == MessageFor(presets, record, id, toIso)
      ensures published.None? ==> delivered == {} && sockets == old(sockets)
      ensures published.Some? ==>
        delivered == Reached(old(sockets), published.value.workflowId, sendThrows)
        && sockets == old(sockets) - Failing(old(sockets), published.value.workflowId, sendThrows)
    {
      var category := match record.category
        case CategoryParts(parts) => Join(parts, ".")
        case CategoryText(t) => if t.Some? then t.value else "";
      if !Contains(ToLower(category), "workflow") {
        return None, {};
      }
      var level := if record.level.Some? then ToLower(record.level.value) else "info";
      var entry := FirstContained(presets, category);
      var workflowId := if entry.Some? then Some(presets[entry.value].id) else None;
      var workflowName := if entry.Some? then presets[entry.value].name else category;
      published := Some(LogMessage(id, workflowId, workflowName, level, record.message, toIso(record.timestamp)));
      delivered := Publish(published.value, sendThrows);
    }
  }
}
