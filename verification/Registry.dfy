/** The sockets a server holds, how many each tenant has, and why each will be said to have ended (server.go). */
module Registries {
  import opened Names
  import opened Options
  import opened Sections
  import opened Channels

  const TERMINATED := "terminated"
  const SHUTDOWN := "shutdown"

  datatype Reg = Reg(
    max: int,
    closed: bool,
    conns: map<SocketId, Connection>,
    perTenant: map<string, nat>,
    reasons: map<SocketId, string>)

  function Opened(max: int): Reg {
    Reg(max, false, map[], map[], map[])
  }

  function CountOf(perTenant: map<string, nat>, tenant: string): nat {
    if tenant in perTenant then perTenant[tenant] else 0
  }

  function ReasonOf(reasons: map<SocketId, string>, id: SocketId): string {
    if id in reasons then reasons[id] else ""
  }

  predicate Final(reason: string) {
    reason == TERMINATED || reason == SHUTDOWN
  }

  // ----- What each call does -----

  datatype RegisterTrouble = ServerClosed | ConnectionLimit

  function RegisterTroubles(st: Reg, conn: Connection): Option<RegisterTrouble> {
    if st.closed then Some(ServerClosed)
    else if st.max > 0 && CountOf(st.perTenant, conn.tenant) >= st.max then Some(ConnectionLimit)
    else None
  }

  function Registered(st: Reg, conn: Connection): Reg {
    if RegisterTroubles(st, conn).Some? then st
    else st.(conns := st.conns[conn.id := conn],
      perTenant := st.perTenant[conn.tenant := CountOf(st.perTenant, conn.tenant) + 1])
  }

  function ReasonGiven(st: Reg, conn: Connection, fallback: string): string {
    if ReasonOf(st.reasons, conn.id) != "" then ReasonOf(st.reasons, conn.id) else fallback
  }

  function Unregistered(st: Reg, conn: Connection): Reg {
    if conn.id !in st.conns then st.(reasons := st.reasons - {conn.id})
    else
      st.(reasons := st.reasons - {conn.id}, conns := st.conns - {conn.id},
          perTenant := if CountOf(st.perTenant, conn.tenant) <= 1 then st.perTenant - {conn.tenant}
                       else st.perTenant[conn.tenant := CountOf(st.perTenant, conn.tenant) - 1])
  }

  function SetOf(ids: seq<SocketId>): set<SocketId> {
    set id | id in ids
  }

  predicate Doomed(st: Reg, g: Grant, subject: string, id: SocketId) {
    id in st.conns && st.conns[id].tenant == g.tenant && st.conns[id].subject == subject
  }

  function Marked(reasons: map<SocketId, string>, ids: set<SocketId>, reason: string): map<SocketId, string> {
    map id | id in reasons.Keys + ids :: if id in ids then reason else reasons[id]
  }

  function DoomedAll(st: Reg, g: Grant, subject: string): set<SocketId> {
    set id | id in st.conns && Doomed(st, g, subject, id)
  }

  predicate MayTerminate(g: Grant, subject: string) {
    g.action == Operate && g.tenant != "" && subject != ""
  }

  function Terminated(st: Reg, g: Grant, subject: string): Reg {
    if MayTerminate(g, subject) then st.(reasons := Marked(st.reasons, DoomedAll(st, g, subject), TERMINATED)) else st
  }

  function Closed(st: Reg): Reg {
    st.(closed := true, reasons := Marked(st.reasons, st.conns.Keys, SHUTDOWN))
  }

  function Recorded(st: Reg, id: SocketId, reason: string): Reg {
    if id !in st.conns || ReasonOf(st.reasons, id) != "" then st else st.(reasons := st.reasons[id := reason])
  }

  function RecordedRead(st: Reg, id: SocketId, reason: string): Reg {
    if Final(ReasonOf(st.reasons, id)) then st else st.(reasons := st.reasons[id := reason])
  }

  class Registry {
    const max: int
    var closed: bool
    var conns: map<SocketId, Connection>
    var perTenant: map<string, nat>
    var closeReasons: map<SocketId, string>

    function Value(): Reg
      reads this
    {
      Reg(max, closed, conns, perTenant, closeReasons)
    }

    constructor (max: int)
      ensures Value() == Opened(max)
    {
      this.max := max;
      closed, conns, perTenant, closeReasons := false, map[], map[], map[];
    }

    method Register(conn: Connection) returns (trouble: Option<RegisterTrouble>)
      modifies this
      ensures trouble == RegisterTroubles(old(Value()), conn)
      ensures Value() == Registered(old(Value()), conn)
    {
      if closed { return Some(ServerClosed); }
      var count := CountOf(perTenant, conn.tenant);
      if max > 0 && count >= max { return Some(ConnectionLimit); }
      conns := conns[conn.id := conn];
      perTenant := perTenant[conn.tenant := count + 1];
      trouble := None;
    }

    method Unregister(conn: Connection, fallback: string) returns (reason: string)
      modifies this
      ensures reason == ReasonGiven(old(Value()), conn, fallback)
      ensures Value() == Unregistered(old(Value()), conn)
    {
      reason := fallback;
      var recorded := ReasonOf(closeReasons, conn.id);
      if recorded != "" { reason := recorded; }
      closeReasons := closeReasons - {conn.id};
      if conn.id !in conns { return; }
      conns := conns - {conn.id};
      var count := CountOf(perTenant, conn.tenant);
      if count <= 1 {
        perTenant := perTenant - {conn.tenant};
        return;
      }
      perTenant := perTenant[conn.tenant := count - 1];
    }

    /** The sockets to close: all of the tenant's for that subject and no others, each once. */
    method Terminate(g: Grant, subject: string) returns (ok: bool, doomed: seq<SocketId>)
      modifies this`closeReasons
      ensures ok <==> g.action == Operate && g.tenant != "" && subject != ""
      ensures Value() == Terminated(old(Value()), g, subject)
      ensures forall id ::
                id in doomed <==> ok && id in conns && conns[id].tenant == g.tenant && conns[id].subject == subject
      ensures forall i, j | 0 <= i < j < |doomed| :: doomed[i] != doomed[j]
    {
      ok, doomed := g.action == Operate && g.tenant != "" && subject != "", [];
      if !ok { return; }
      doomed := Matching(conns, g.tenant, subject);
      ghost var all := DoomedAll(Value(), g, subject);
      assert forall id :: id in doomed <==> id in all;
      closeReasons := MarkAll(closeReasons, doomed, TERMINATED);
      assert SetOf(doomed) == all;
    }

    method Close() returns (doomed: seq<SocketId>)
      modifies this
      ensures Value() == Closed(old(Value()))
      ensures forall id :: id in doomed <==> id in old(conns)
    {
      closed := true;
      doomed := [];
      var rest := conns.Keys;
      while rest != {}
        invariant Value() == old(Value()).(closed := true)
        invariant rest <= conns.Keys && forall id :: id in doomed <==> id in conns && id !in rest
        decreases |rest|
      {
        var id :| id in rest;
        doomed := doomed + [id];
        rest := rest - {id};
      }
      closeReasons := MarkAll(closeReasons, doomed, SHUTDOWN);
      assert SetOf(doomed) == conns.Keys;
    }

    method RecordCloseReason(id: SocketId, reason: string)
      modifies this`closeReasons
      ensures Value() == Recorded(old(Value()), id, reason)
    {
      if id !in conns { return; }
      if ReasonOf(closeReasons, id) == "" {
        closeReasons := closeReasons[id := reason];
      }
    }

    method RecordReadCloseReason(id: SocketId, reason: string)
      modifies this`closeReasons
      ensures Value() == RecordedRead(old(Value()), id, reason)
    {
      var recorded := ReasonOf(closeReasons, id);
      if recorded == SHUTDOWN || recorded == TERMINATED { return; }
      closeReasons := closeReasons[id := reason];
    }
  }

  method Matching(conns: map<SocketId, Connection>, tenant: string, subject: string) returns (ids: seq<SocketId>)
    ensures forall id :: id in ids <==> id in conns && conns[id].tenant == tenant && conns[id].subject == subject
    ensures forall i, j | 0 <= i < j < |ids| :: ids[i] != ids[j]
  {
    ids := [];
    var rest := conns.Keys;
    while rest != {}
      invariant rest <= conns.Keys
      invariant forall id ::
                  id in ids <==>
                    id in conns && id !in rest && conns[id].tenant == tenant && conns[id].subject == subject
      invariant forall i, j | 0 <= i < j < |ids| :: ids[i] != ids[j]
      decreases |rest|
    {
      var id :| id in rest;
      if conns[id].tenant == tenant && conns[id].subject == subject {
        ids := ids + [id];
      }
      rest := rest - {id};
    }
  }

  method MarkAll(reasons: map<SocketId, string>, ids: seq<SocketId>, reason: string)
    returns (all: map<SocketId, string>)
    ensures all == Marked(reasons, SetOf(ids), reason)
  {
    hide Marked;
    all := reasons;
    MarkedNone(reasons, ids, reason);
    for i := 0 to |ids|
      invariant all == Marked(reasons, SetOf(ids[..i]), reason)
    {
      MarkedMore(reasons, ids, i, reason);
      all := all[ids[i] := reason];
    }
    assert ids[..|ids|] == ids;
  }

  lemma MarkedNone(reasons: map<SocketId, string>, ids: seq<SocketId>, reason: string)
    ensures Marked(reasons, SetOf(ids[..0]), reason) == reasons
  {
  }

  lemma MarkedMore(reasons: map<SocketId, string>, ids: seq<SocketId>, i: nat, reason: string)
    requires i < |ids|
    ensures Marked(reasons, SetOf(ids[..i + 1]), reason) == Marked(reasons, SetOf(ids[..i]), reason)[ids[i] := reason]
  {
    assert ids[..i + 1] == ids[..i] + [ids[i]];
  }

  // ----- Over any run -----

  datatype Step =
    | Register(conn: Connection)
    | Unregister(conn: Connection)
    | Terminate(g: Grant, subject: string)
    | Close
    | Record(id: SocketId, reason: string)
    | RecordRead(id: SocketId, reason: string)

  /** Socket ids are minted once, and a read is recorded while its own socket is held. */
  predicate Enabled(st: Reg, a: Step) {
    match a
    case Register(conn) => conn.id !in st.conns
    case Unregister(conn) => conn.id in st.conns ==> st.conns[conn.id] == conn
    case RecordRead(id, _) => id in st.conns
    case _ => true
  }

  function Apply(st: Reg, a: Step): Reg {
    match a
    case Register(conn) => Registered(st, conn)
    case Unregister(conn) => Unregistered(st, conn)
    case Terminate(g, subject) => Terminated(st, g, subject)
    case Close => Closed(st)
    case Record(id, reason) => Recorded(st, id, reason)
    case RecordRead(id, reason) => RecordedRead(st, id, reason)
  }

  ghost predicate Run(st: Reg, steps: seq<Step>, end: Reg)
    decreases |steps|
  {
    if steps == [] then end == st else Enabled(st, steps[0]) && Run(Apply(st, steps[0]), steps[1..], end)
  }

  function HeldBy(conns: map<SocketId, Connection>, tenant: string): set<SocketId> {
    set id | id in conns && conns[id].tenant == tenant
  }

  ghost predicate Invariant(st: Reg) {
    && (forall id | id in st.conns :: st.conns[id].id == id)
    && (forall t: string :: CountOf(st.perTenant, t) == |HeldBy(st.conns, t)|)
    && (forall t | t in st.perTenant :: st.perTenant[t] > 0 && (st.max > 0 ==> st.perTenant[t] <= st.max))
    && (forall id | id in st.reasons :: id in st.conns)
  }

  lemma OneMore(conns: map<SocketId, Connection>, conn: Connection, t: string)
    requires conn.id !in conns
    ensures |HeldBy(conns[conn.id := conn], t)| == |HeldBy(conns, t)| + if t == conn.tenant then 1 else 0
  {
    assert HeldBy(conns[conn.id := conn], t) == HeldBy(conns, t) + if t == conn.tenant then {conn.id} else {};
  }

  lemma OneLess(conns: map<SocketId, Connection>, conn: Connection, t: string)
    requires conn.id in conns && conns[conn.id] == conn
    ensures |HeldBy(conns - {conn.id}, t)| == |HeldBy(conns, t)| - if t == conn.tenant then 1 else 0
  {
    OneMore(conns - {conn.id}, conn, t);
    assert (conns - {conn.id})[conn.id := conn] == conns;
  }

  lemma RegisterKeeps(st: Reg, conn: Connection)
    requires Invariant(st) && Enabled(st, Register(conn))
    ensures Invariant(Registered(st, conn))
  {
    hide HeldBy;
    var end := Registered(st, conn);
    forall t: string ensures CountOf(end.perTenant, t) == |HeldBy(end.conns, t)| {
      OneMore(st.conns, conn, t);
    }
  }

  lemma UnregisterKeeps(st: Reg, conn: Connection)
    requires Invariant(st) && Enabled(st, Unregister(conn))
    ensures Invariant(Unregistered(st, conn))
  {
    hide HeldBy;
    var end := Unregistered(st, conn);
    forall t: string ensures CountOf(end.perTenant, t) == |HeldBy(end.conns, t)| {
      if conn.id in st.conns { OneLess(st.conns, conn, t); }
    }
  }

  lemma StepKeeps(st: Reg, a: Step)
    requires Invariant(st) && Enabled(st, a)
    ensures Invariant(Apply(st, a)) && Apply(st, a).max == st.max
  {
    match a
    case Register(conn) => RegisterKeeps(st, conn);
    case Unregister(conn) => UnregisterKeeps(st, conn);
    case _ =>
      assert Apply(st, a).conns == st.conns && Apply(st, a).perTenant == st.perTenant;
  }

  lemma {:induction false} RunKeeps(st: Reg, steps: seq<Step>, end: Reg)
    requires Invariant(st) && Run(st, steps, end)
    ensures Invariant(end) && end.max == st.max
    decreases |steps|
  {
    hide Invariant, Enabled, Apply;
    if steps != [] {
      StepKeeps(st, steps[0]);
      RunKeeps(Apply(st, steps[0]), steps[1..], end);
    }
  }

  /**
   * Over any run from the start: a tenant's count is the sockets it holds, it is not kept at zero, no tenant is over a
   * positive limit, and a reason is on record only for a socket that is held.
   */
  lemma CountsAreExact(max: int, steps: seq<Step>, st: Reg, tenant: string)
    requires Run(Opened(max), steps, st)
    ensures CountOf(st.perTenant, tenant) == |HeldBy(st.conns, tenant)|
    ensures tenant in st.perTenant <==> HeldBy(st.conns, tenant) != {}
    ensures max > 0 ==> |HeldBy(st.conns, tenant)| <= max
    ensures forall id | id in st.reasons :: id in st.conns
  {
    assert forall t: string :: HeldBy(map[], t) == {};
    RunKeeps(Opened(max), steps, st);
    assert CountOf(st.perTenant, tenant) == |HeldBy(st.conns, tenant)|;
  }

  /** Once closed, closed: nobody is let in again, and the sockets held only go. */
  lemma {:induction false} NothingAfterClose(st: Reg, steps: seq<Step>, end: Reg)
    requires st.closed && Run(st, steps, end)
    ensures end.closed && end.conns.Keys <= st.conns.Keys
    decreases |steps|
  {
    if steps != [] {
      var next := Apply(st, steps[0]);
      assert next.closed && next.conns.Keys <= st.conns.Keys;
      NothingAfterClose(next, steps[1..], end);
    }
  }

  /** A socket terminated or shut down is said to have been: no later failure or read changes that to anything else. */
  lemma {:induction false} ReasonSticks(st: Reg, steps: seq<Step>, end: Reg, conn: Connection, fallback: string)
    requires ReasonOf(st.reasons, conn.id) in {"terminated", "shutdown"} && Run(st, steps, end)
    requires forall a | a in steps :: !(a.Unregister? && a.conn.id == conn.id)
    ensures ReasonGiven(end, conn, fallback) in {"terminated", "shutdown"}
    decreases |steps|
  {
    if steps != [] {
      var next := Apply(st, steps[0]);
      assert steps[0] in steps;
      FinalStays(st, steps[0], conn.id);
      assert forall a | a in steps[1..] :: a in steps;
      hide Apply, Final;
      ReasonSticks(next, steps[1..], end, conn, fallback);
    }
  }

  lemma FinalStays(st: Reg, a: Step, id: SocketId)
    requires Final(ReasonOf(st.reasons, id)) && !(a.Unregister? && a.conn.id == id)
    ensures Final(ReasonOf(Apply(st, a).reasons, id))
  {
  }

  /** What is on record for a socket once its tenant's operator terminates a subject: that, or what was before. */
  lemma TerminateMarks(st: Reg, g: Grant, subject: string, id: SocketId)
    ensures ReasonOf(Terminated(st, g, subject).reasons, id)
         == if g.action == Operate && g.tenant != "" && subject != ""
               && id in st.conns && st.conns[id].tenant == g.tenant && st.conns[id].subject == subject
            then "terminated" else ReasonOf(st.reasons, id)
    ensures var end := Terminated(st, g, subject); end == st.(reasons := end.reasons)
  {
  }

  /** Closing holds nobody less: the sockets go as their readers end. */
  lemma CloseMarks(st: Reg, id: SocketId)
    ensures ReasonOf(Closed(st).reasons, id) == if id in st.conns then "shutdown" else ReasonOf(st.reasons, id)
    ensures var end := Closed(st); end.closed && end == st.(closed := true, reasons := end.reasons)
  {
  }

  /** What a read failed with replaces any reason but those two. */
  lemma ReadReplaces(st: Reg, id: SocketId, reason: string)
    ensures ReasonOf(RecordedRead(st, id, reason).reasons, id)
         == if ReasonOf(st.reasons, id) in {"terminated", "shutdown"} then ReasonOf(st.reasons, id) else reason
    ensures var end := RecordedRead(st, id, reason); end == st.(reasons := end.reasons)
  {
  }

  /** Over any run a socket is let in if and only if the server is open and its tenant has room for one more. */
  lemma LetInExact(max: int, steps: seq<Step>, st: Reg, conn: Connection)
    requires Run(Opened(max), steps, st) && conn.id !in st.conns
    ensures var end := Registered(st, conn);
            if st.closed || (max > 0 && |HeldBy(st.conns, conn.tenant)| >= max) then
              && end == st
              && RegisterTroubles(st, conn) == Some(if st.closed then ServerClosed else ConnectionLimit)
            else
              && end == st.(conns := st.conns[conn.id := conn], perTenant := end.perTenant)
              && RegisterTroubles(st, conn) == None
  {
    CountsAreExact(max, steps, st, conn.tenant);
    RunKeepsMax(Opened(max), steps, st);
  }

  lemma {:induction false} RunKeepsMax(st: Reg, steps: seq<Step>, end: Reg)
    requires Run(st, steps, end)
    ensures end.max == st.max
    decreases |steps|
  {
    if steps != [] {
      RunKeepsMax(Apply(st, steps[0]), steps[1..], end);
    }
  }

  /** Nothing in the run says why this socket ended, but for reasons offered once there is one. */
  predicate Silent(a: Step, id: SocketId) {
    match a
    case Register(conn) => true
    case Unregister(conn) => conn.id != id
    case Record(_, _) => true
    case RecordRead(i, _) => i != id
    case Terminate(_, _) | Close => false
  }

  /** The first reason on record is the one given when the socket goes; later ones do not replace it. */
  lemma {:induction false} FirstReasonGiven(
    st: Reg, steps: seq<Step>, end: Reg, conn: Connection, reason: string, fallback: string)
    requires reason != "" && ReasonOf(st.reasons, conn.id) == reason
    requires Run(st, steps, end) && forall a | a in steps :: Silent(a, conn.id)
    ensures ReasonGiven(end, conn, fallback) == reason
    decreases |steps|
  {
    if steps != [] {
      assert steps[0] in steps && Silent(steps[0], conn.id);
      assert forall a | a in steps[1..] :: a in steps;
      FirstReasonGiven(Apply(st, steps[0]), steps[1..], end, conn, reason, fallback);
    }
  }

  /** A held socket with nothing on record gets the reason that is recorded; none is ever made up. */
  lemma ReasonRecorded(st: Reg, conn: Connection, reason: string, fallback: string)
    requires ReasonOf(st.reasons, conn.id) == ""
    ensures ReasonGiven(st, conn, fallback) == fallback
    ensures ReasonOf(Recorded(st, conn.id, reason).reasons, conn.id) == if conn.id in st.conns then reason else ""
    ensures var end := Recorded(st, conn.id, reason); end == st.(reasons := end.reasons)
  {
  }

  /** Gone means held no longer and nothing on record, and nobody else goes with it. */
  lemma UnregisterRemoves(st: Reg, conn: Connection)
    ensures var end := Unregistered(st, conn);
            end.conns == st.conns - {conn.id} && end.reasons == st.reasons - {conn.id} && end.closed == st.closed
  {
  }

  /** Recording a read does not ask whether the socket is held: outside that it leaves a reason for nobody. */
  lemma ReadNeedsItsSocket(st: Reg, id: SocketId, reason: string)
    requires Invariant(st)
    ensures Invariant(RecordedRead(st, id, reason)) <==> id in st.conns
  {
    var end := RecordedRead(st, id, reason);
    assert id in end.reasons;
    assert end.conns == st.conns && end.perTenant == st.perTenant;
  }
}
