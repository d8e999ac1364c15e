/** The announcement machine: a priority list built from a table, and preemption by priority. */
module Announce {
  import opened Wrappers
  import opened Events

  const NOT_FOUND := 0xFFFF_FFFF
  const LOWEST_PRIORITY := 0xFFFF_FFFF

  /** The range of an unsigned int. */
  type Priority = p: nat | p <= LOWEST_PRIORITY

  /** A row of the priority table; a smaller value means more important. */
  datatype Row = Row(name: string, priority: Priority)

  // ---------- From event names to ids ----------

  datatype NamedId = NamedId(name: string, id: int)

  /** bcu_ann_option_table, as compiled with WITH_DB. */
  const OPTIONS: seq<NamedId> := [
    NamedId("OCC", OCC_EVENT), NamedId("Outer3D5", MIC_3D5_OUTER_EVENT), NamedId("LIVE", LIVE_ANN_EVENT),
    NamedId("EMERG", EMERG_ANN_EVENT), NamedId("MANUAL", MANUAL_ANN_EVENT),
    NamedId("TMS-MANUAL", TMS_MANUAL_ANN_EVENT), NamedId("TMS-AUTO", TMS_AUTO_ANN_EVENT),
    NamedId("ANN-IDLE", ANN_IDLE), NamedId("D2D", D2D_INTERCOMM_EVENT), NamedId("D2P", D2P_INTERCOMM_EVENT),
    NamedId("D2DXD2P", D2D_HANGUP_D2P_EVENT), NamedId("D2PPEND", D2P_INTERCOM_PENDING),
    NamedId("INTERCOM-IDLE", INTERCOM_IDLE), NamedId("LINENO", LINE_NUMBER_CHANGE_EVENT)]

  /** strncmp over the shorter of the two lengths: either name may be a prefix of the other. */
  predicate NamesMatch(a: string, b: string) {
    a <= b || b <= a
  }

  /** The first option that matches decides. */
  function IdFrom(options: seq<NamedId>, name: string): int {
    if options == [] then NOT_FOUND
    else if NamesMatch(options[0].name, name) then options[0].id
    else IdFrom(options[1..], name)
  }

  function EventId(name: string): int {
    IdFrom(OPTIONS, name)
  }

  /** The first state object carrying the id. */
  function StateFrom(states: seq<StateObject>, id: int): (o: Option<StateObject>)
    ensures o.Some? ==> o.value in states && DeclaredId(o.value) == id
    ensures o.None? ==> forall x :: x in states ==> DeclaredId(x) != id
  {
    if states == [] then None
    else if DeclaredId(states[0]) == id then Some(states[0])
    else StateFrom(states[1..], id)
  }

  // ---------- The priority list ----------

  datatype Node = Node(id: int, priority: Priority, process: Option<StateObject>)

  const IDLE_NODE := Node(ANN_IDLE, LOWEST_PRIORITY, Some(IdleAnn))

  /** The object that carries the id of an announcement. */
  function StateOf(id: int): StateObject {
    if id == OCC_EVENT then Occ else if id == LIVE_ANN_EVENT then LiveAnn
    else if id == MIC_3D5_OUTER_EVENT then Outer3D5 else if id == EMERG_ANN_EVENT then EmergAnn
    else if id == MANUAL_ANN_EVENT then ManualAnn else AutoAnn
  }

  lemma AnnouncementHasState(id: int)
    requires IsAnnouncement(id)
    ensures DeclaredId(StateOf(id)) == id && StateOf(id) in ALL_STATES
  {
    assert ALL_STATES[0] == AutoAnn && ALL_STATES[2] == LiveAnn && ALL_STATES[3] == Occ;
    assert ALL_STATES[4] == Outer3D5 && ALL_STATES[5] == EmergAnn && ALL_STATES[6] == ManualAnn;
  }

  function NodeOf(r: Row): (n: Node)
    ensures n.id == EventId(r.name) && n.priority == r.priority && Sound(n)
    ensures IsAnnouncement(n.id) ==> n.process.Some?
  {
    var id := EventId(r.name);
    assert IsAnnouncement(id) ==> StateFrom(ALL_STATES, id).Some? by {
      if IsAnnouncement(id) {
        AnnouncementHasState(id);
      }
    }
    Node(id, r.priority, StateFrom(ALL_STATES, id))
  }

  /** A node points to the state object that carries its id, if it points to one. */
  predicate Sound(n: Node) {
    n.process.Some? ==> DeclaredId(n.process.value) == n.id
  }

  function Map<A, B>(f: A -> B, s: seq<A>): (t: seq<B>)
    ensures |t| == |s|
  {
    seq(|s|, i requires 0 <= i < |s| => f(s[i]))
  }

  /** The list for `rows`: they are appended behind the idle node, last first. */
  function Linked(rows: seq<Node>): (ns: seq<Node>)
    ensures |ns| == |rows| + 1
  {
    if rows == [] then [IDLE_NODE] else Linked(rows[1..]) + [rows[0]]
  }

  function PriorityList(table: seq<Row>): seq<Node> {
    Linked(Map(NodeOf, table))
  }

  lemma {:induction false} LinkedMembers(rows: seq<Node>, n: Node)
    ensures n in Linked(rows) <==> n == IDLE_NODE || n in rows
  {
    if rows != [] {
      LinkedMembers(rows[1..], n);
      assert rows == [rows[0]] + rows[1..];
    }
  }

  /** BcuAnnStatePriorityListSearch: the first node with the id. */
  function Find(nodes: seq<Node>, id: int): (r: Option<Node>)
    ensures r.Some? ==> r.value in nodes && r.value.id == id
    ensures r.None? ==> forall n :: n in nodes ==> n.id != id
  {
    if nodes == [] then None
    else if nodes[0].id == id then Some(nodes[0])
    else Find(nodes[1..], id)
  }

  lemma {:induction false} IdleIsFirst(rows: seq<Node>)
    ensures Linked(rows)[0] == IDLE_NODE && Find(Linked(rows), ANN_IDLE) == Some(IDLE_NODE)
  {
    if rows != [] {
      IdleIsFirst(rows[1..]);
    }
  }

  /** A list that starts with the idle node and holds exactly the nodes of the rows besides, in any order and
    * any number of times. */
  ghost predicate ListOf(nodes: seq<Node>, rows: seq<Row>) {
    && nodes != [] && nodes[0] == IDLE_NODE
    && forall n :: n in nodes <==> n == IDLE_NODE || n in Map(NodeOf, rows)
  }

  lemma PriorityListIsListOf(table: seq<Row>)
    ensures ListOf(PriorityList(table), table)
  {
    IdleIsFirst(Map(NodeOf, table));
    forall n
      ensures n in PriorityList(table) <==> n == IDLE_NODE || n in Map(NodeOf, table)
    {
      LinkedMembers(Map(NodeOf, table), n);
    }
  }

  /** The list built from a table: the idle node, then the rows from the last to the first. */
  lemma {:induction false} LinkedAt(rows: seq<Node>, j: nat)
    requires j < |rows|
    ensures Linked(rows)[0] == IDLE_NODE && Linked(rows)[1 + j] == rows[|rows| - 1 - j]
  {
    IdleIsFirst(rows);
    if j < |rows| - 1 {
      LinkedAt(rows[1..], j);
    }
  }

  /** Rows received one by one are appended. */
  function Appended(nodes: seq<Node>, rows: seq<Row>): seq<Node> {
    nodes + Map(NodeOf, rows)
  }

  lemma AppendedIsListOf(nodes: seq<Node>, table: seq<Row>, rows: seq<Row>)
    requires ListOf(nodes, table)
    ensures ListOf(Appended(nodes, rows), table + rows)
  {
    assert Map(NodeOf, table + rows) == Map(NodeOf, table) + Map(NodeOf, rows);
  }

  /** What a search finds it still finds when more is appended. */
  lemma {:induction false} FindInLonger(nodes: seq<Node>, more: seq<Node>, id: int)
    ensures Find(nodes + more, id) == if Find(nodes, id).Some? then Find(nodes, id) else Find(more, id)
  {
    if nodes == [] {
      assert nodes + more == more;
    } else {
      assert (nodes + more)[1..] == nodes[1..] + more;
      FindInLonger(nodes[1..], more, id);
    }
  }

  /** A further row changes some search if and only if its event was not listed yet: sending a row again, with
    * whatever priority, has no effect. */
  lemma RowTakesEffectIffNew(nodes: seq<Node>, row: Row)
    ensures (forall id :: Find(Appended(nodes, [row]), id) == Find(nodes, id))
            <==> Find(nodes, EventId(row.name)).Some?
  {
    var n := NodeOf(row);
    assert Map(NodeOf, [row]) == [n];
    forall id
      ensures Find([n], id) == if n.id == id then Some(n) else None
      ensures Find(Appended(nodes, [row]), id) == if Find(nodes, id).Some? then Find(nodes, id) else Find([n], id)
    {
      assert [n][1..] == [];
      FindInLonger(nodes, [n], id);
    }
    assert Find(Appended(nodes, [row]), n.id) == if Find(nodes, n.id).Some? then Find(nodes, n.id) else Some(n);
  }

  /** Some row of the table is about the event. */
  predicate Named(table: seq<Row>, id: int) {
    exists k :: 0 <= k < |table| && EventId(table[k].name) == id
  }

  lemma NamedRow(table: seq<Row>, n: Node)
    requires n in Map(NodeOf, table)
    ensures Named(table, n.id)
  {
    var k :| 0 <= k < |table| && Map(NodeOf, table)[k] == n;
    assert n == NodeOf(table[k]);
  }

  /** A search finds an event if and only if it is idle or some row's name resolves to it. */
  lemma FoundIffNamed(nodes: seq<Node>, table: seq<Row>, id: int)
    requires ListOf(nodes, table)
    ensures Find(nodes, id).Some? <==> id == ANN_IDLE || Named(table, id)
    ensures Find(nodes, ANN_IDLE) == Some(IDLE_NODE)
  {
    assert IDLE_NODE in nodes;
    if Find(nodes, id).Some? {
      var n := Find(nodes, id).value;
      if n in Map(NodeOf, table) {
        NamedRow(table, n);
      }
    }
    if k :| 0 <= k < |table| && EventId(table[k].name) == id {
      assert Map(NodeOf, table)[k] == NodeOf(table[k]) && NodeOf(table[k]) in nodes;
    }
  }

  // ---------- Order independence ----------

  /** No two rows are about the same event. */
  ghost predicate DistinctIds(rows: seq<Node>) {
    forall i, j :: 0 <= i < j < |rows| ==> rows[i].id != rows[j].id
  }

  lemma RowIsFound(rows: seq<Node>, n: Node)
    requires DistinctIds(rows) && n in rows && n.id != ANN_IDLE
    ensures Find(Linked(rows), n.id) == Some(n)
  {
    LinkedMembers(rows, n);
    var m := Find(Linked(rows), n.id).value;
    LinkedMembers(rows, m);
    var i :| 0 <= i < |rows| && rows[i] == n;
    var j :| 0 <= j < |rows| && rows[j] == m;
  }

  lemma TwoOccurrences<T>(s: seq<T>, i: nat, j: nat)
    requires i < j < |s| && s[i] == s[j]
    ensures multiset(s)[s[i]] >= 2
  {
    assert s == s[..j] + s[j..];
    assert s[i] in s[..j] && s[j] in s[j..];
    assert multiset(s) == multiset(s[..j]) + multiset(s[j..]);
  }

  lemma FindTwoOccurrences<T>(s: seq<T>, x: T) returns (i: nat, j: nat)
    requires multiset(s)[x] >= 2
    ensures i < j < |s| && s[i] == s[j] == x
  {
    assert x in s;
    i :| 0 <= i < |s| && s[i] == x;
    var before, after := s[..i], s[i + 1..];
    assert s == before + [x] + after;
    assert multiset(s) == multiset(before) + multiset{x} + multiset(after);
    assert x in before || x in after;
    if k :| 0 <= k < |before| && before[k] == x {
      i, j := k, i;
    } else {
      var k :| 0 <= k < |after| && after[k] == x;
      j := i + 1 + k;
    }
  }

  lemma PermutationKeepsDistinctIds(a: seq<Node>, b: seq<Node>)
    requires DistinctIds(a) && multiset(a) == multiset(b)
    ensures DistinctIds(b)
  {
    forall i, j | 0 <= i < j < |b|
      ensures b[i].id != b[j].id
    {
      if b[i].id == b[j].id {
        assert b[i] in multiset(a) && b[j] in multiset(a);
        var x :| 0 <= x < |a| && a[x] == b[i];
        var y :| 0 <= y < |a| && a[y] == b[j];
        assert x == y;
        TwoOccurrences(b, i, j);
        x, y := FindTwoOccurrences(a, b[i]);
        assert false;
      }
    }
  }

  lemma LinkedIgnoresOrder(a: seq<Node>, b: seq<Node>, id: int)
    requires DistinctIds(a) && multiset(a) == multiset(b)
    ensures Find(Linked(a), id) == Find(Linked(b), id)
  {
    PermutationKeepsDistinctIds(a, b);
    IdleIsFirst(a);
    IdleIsFirst(b);
    if id != ANN_IDLE {
      match Find(Linked(a), id)
      case Some(n) =>
        LinkedMembers(a, n);
        assert n in multiset(b);
        RowIsFound(a, n);
        RowIsFound(b, n);
      case None =>
        if Find(Linked(b), id).Some? {
          var n := Find(Linked(b), id).value;
          LinkedMembers(b, n);
          assert n in multiset(a);
          LinkedMembers(a, n);
          assert false;
        }
    }
  }

  function Without<A>(s: seq<A>, k: nat): (t: seq<A>)
    requires k < |s|
    ensures |t| == |s| - 1
  {
    s[..k] + s[k + 1..]
  }

  lemma WithoutOccurrence<A>(s: seq<A>, k: nat)
    requires k < |s|
    ensures multiset(s) == multiset(Without(s, k)) + multiset{s[k]}
  {
    assert s == s[..k] + [s[k]] + s[k + 1..];
  }

  lemma MapWithout<A, B>(f: A -> B, s: seq<A>, k: nat)
    requires k < |s|
    ensures Map(f, Without(s, k)) == Without(Map(f, s), k)
  {
  }

  lemma {:induction false} MapKeepsPermutation<A, B>(f: A -> B, a: seq<A>, b: seq<A>)
    requires multiset(a) == multiset(b)
    ensures multiset(Map(f, a)) == multiset(Map(f, b))
    decreases |a|
  {
    if a == [] {
      assert |b| == |multiset(b)| == 0;
    } else {
      assert a[0] in multiset(b);
      var k :| 0 <= k < |b| && b[k] == a[0];
      WithoutOccurrence(a, 0);
      WithoutOccurrence(b, k);
      assert multiset(Without(a, 0)) == multiset(a) - multiset{a[0]} == multiset(Without(b, k));
      MapKeepsPermutation(f, Without(a, 0), Without(b, k));
      MapWithout(f, a, 0);
      MapWithout(f, b, k);
      WithoutOccurrence(Map(f, a), 0);
      WithoutOccurrence(Map(f, b), k);
    }
  }

  /** In whatever order the rows come, every search finds the same priority and the same state. */
  lemma SearchIgnoresTableOrder(a: seq<Row>, b: seq<Row>, id: int)
    requires DistinctIds(Map(NodeOf, a)) && multiset(a) == multiset(b)
    ensures Find(PriorityList(a), id) == Find(PriorityList(b), id)
  {
    MapKeepsPermutation(NodeOf, a, b);
    LinkedIgnoresOrder(Map(NodeOf, a), Map(NodeOf, b), id);
  }

  // ---------- Preemption ----------

  /** BcuDynamicStateExchange: the state object active afterwards. */
  function Exchange(nodes: seq<Node>, active: StateObject, c: Command): StateObject {
    if c.intercom == INTERCOM_IDLE && c.ann != ANN_IDLE && EventFamily(DeclaredId(active)) == 0 then
      var wanted, running := Find(nodes, c.ann), Find(nodes, DeclaredId(active));
      if wanted.Some? && running.Some? && wanted.value.priority <= running.value.priority then
        var target :=
          if IsOverPackage(c) && wanted.value.id == running.value.id then IDLE_NODE else wanted.value;
        if target.process.Some? then target.process.value else active
      else active
    else active
  }

  /** What the surroundings contribute to one call: the command, the id of the active intercom state, and
    * whether the microphone is free. */
  datatype Event = Event(c: Command, intercomId: int, micFree: bool)

  /** ANNStateHangle. */
  function Handle(nodes: seq<Node>, active: StateObject, e: Event): StateObject {
    if e.c.ann != ANN_IDLE && WantsExchange(DeclaredId(active), e.intercomId, e.c)
       && !(e.c.ann == LIVE_ANN_EVENT && !e.micFree && e.c.annActive == 1)
    then Exchange(nodes, active, e.c)
    else active
  }

  ghost predicate Listed(nodes: seq<Node>, o: StateObject) {
    Find(nodes, DeclaredId(o)).Some?
  }

  function PriorityOf(nodes: seq<Node>, o: StateObject): nat
    requires Listed(nodes, o)
  {
    Find(nodes, DeclaredId(o)).value.priority
  }

  /** Different events are found with different priorities. */
  ghost predicate PrioritiesDiffer(nodes: seq<Node>) {
    forall x, y :: x != y && Find(nodes, x).Some? && Find(nodes, y).Some? ==>
      Find(nodes, x).value.priority != Find(nodes, y).value.priority
  }

  /** What the results below need of a list. */
  ghost predicate WellBuilt(nodes: seq<Node>) {
    && PrioritiesDiffer(nodes)
    && (forall n :: n in nodes ==> Sound(n))
    && Find(nodes, ANN_IDLE) == Some(IDLE_NODE)
  }

  /** A command changes the running announcement in two ways only: it starts a strictly more important one,
    * or it is the running announcement's own over-package and leads to idle. */
  lemma ChangeIsTakeoverOrOwnOver(nodes: seq<Node>, active: StateObject, e: Event)
    requires WellBuilt(nodes) && Listed(nodes, active)
    requires Handle(nodes, active, e) != active
    ensures var next := Handle(nodes, active, e);
            && Listed(nodes, next)
            && (|| (next == IdleAnn && IsOverPackage(e.c) && e.c.ann == DeclaredId(active))
                || (!IsOverPackage(e.c) && e.c.ann == DeclaredId(next) != ANN_IDLE
                    && PriorityOf(nodes, next) < PriorityOf(nodes, active)))
  {
    assert Find(nodes, e.c.ann).Some? && Find(nodes, DeclaredId(active)).Some?;
  }

  /** A command about an event that no row names changes nothing, whatever is running. */
  lemma UnnamedEventIsIgnored(nodes: seq<Node>, table: seq<Row>, active: StateObject, e: Event)
    requires ListOf(nodes, table) && !Named(table, e.c.ann)
    ensures Handle(nodes, active, e) == active
  {
    FoundIffNamed(nodes, table, e.c.ann);
  }

  /** The command that asks for an announcement, with nothing in its way. */
  function Start(id: int): Event {
    Event(Command(id, INTERCOM_IDLE, 1, 0, 0, 0, 0), INTERCOM_IDLE, true)
  }

  lemma NamedNodeHasState(table: seq<Row>, n: Node)
    requires n in Map(NodeOf, table) && IsAnnouncement(n.id)
    ensures n.process.Some? && n.process.value != IdleAnn
  {
    var k :| 0 <= k < |table| && Map(NodeOf, table)[k] == n;
    assert n == NodeOf(table[k]);
  }

  lemma FoundStarts(nodes: seq<Node>, id: int, n: Node)
    requires IsAnnouncement(id) && Find(nodes, id) == Some(n) && Find(nodes, ANN_IDLE) == Some(IDLE_NODE)
    requires n.process.Some?
    ensures Handle(nodes, IdleAnn, Start(id)) == n.process.value
  {
  }

  /** An announcement can be started from idle, by some command, if and only if some row names it. */
  lemma StartableIffNamed(nodes: seq<Node>, table: seq<Row>, id: int)
    requires ListOf(nodes, table) && IsAnnouncement(id)
    ensures (exists e: Event :: e.c.ann == id && Handle(nodes, IdleAnn, e) != IdleAnn) <==> Named(table, id)
  {
    if Named(table, id) {
      FoundIffNamed(nodes, table, id);
      var n := Find(nodes, id).value;
      NamedNodeHasState(table, n);
      FoundStarts(nodes, id, n);
      assert Start(id).c.ann == id;
    } else {
      forall e: Event | e.c.ann == id
        ensures Handle(nodes, IdleAnn, e) == IdleAnn
      {
        UnnamedEventIsIgnored(nodes, table, IdleAnn, e);
      }
    }
  }

  /** The object that is active while an announcement runs, or none does. */
  predicate IsAnnouncing(o: StateObject) {
    o == IdleAnn || IsAnnouncement(DeclaredId(o))
  }

  lemma ListedAnnouncement(nodes: seq<Node>, table: seq<Row>, id: int)
    requires ListOf(nodes, table) && IsAnnouncement(id) && Find(nodes, id).Some?
    ensures Find(nodes, id).value.process == Some(StateOf(id))
  {
    var n := Find(nodes, id).value;
    assert n in Map(NodeOf, table);
    NamedNodeHasState(table, n);
    var k := NodeHasRow(table, n);
    AnnouncementHasState(id);
    SameIdSameState(n.process.value, StateOf(id));
  }

  lemma SameIdSameState(a: StateObject, b: StateObject)
    requires DeclaredId(a) == DeclaredId(b)
    ensures a == b
  {
  }

  lemma OwnCommandDoes(nodes: seq<Node>, active: StateObject, e: Event)
    requires WellBuilt(nodes) && Listed(nodes, active) && IsAnnouncement(DeclaredId(active))
    requires e.c.ann == DeclaredId(active)
    ensures Handle(nodes, active, e) ==
            if e.c.intercom == INTERCOM_IDLE && e.c.annActive == 0 then IdleAnn else active
  {
    var n := Find(nodes, e.c.ann).value;
    assert n in nodes && Sound(n);
    if n.process.Some? {
      SameIdSameState(n.process.value, active);
    }
  }

  lemma OtherCommandDoes(nodes: seq<Node>, active: StateObject, e: Event)
    requires WellBuilt(nodes) && Listed(nodes, active) && IsAnnouncing(active)
    requires IsAnnouncement(e.c.ann) && e.c.ann != DeclaredId(active)
    requires Find(nodes, e.c.ann).Some? ==> Find(nodes, e.c.ann).value.process == Some(StateOf(e.c.ann))
    ensures Handle(nodes, active, e) ==
            if e.c.intercom != INTERCOM_IDLE || e.c.annActive == 0
               || (e.c.ann == LIVE_ANN_EVENT && !e.micFree && e.c.annActive == 1) then active
            else if Find(nodes, e.c.ann).Some? && Find(nodes, e.c.ann).value.priority < PriorityOf(nodes, active)
            then StateOf(e.c.ann) else active
  {
    assert EventFamily(DeclaredId(active)) == 0;
    if e.c.annActive == 0 {
      assert !WantsExchange(DeclaredId(active), e.intercomId, e.c);
    } else {
      assert WantsExchange(DeclaredId(active), e.intercomId, e.c) && !IsOverPackage(e.c);
      if Find(nodes, e.c.ann).Some? {
        assert Find(nodes, e.c.ann).value.priority != PriorityOf(nodes, active);
      }
    }
  }

  /** Exactly what a command about an announcement does.  A request for another one, with the intercom idle and, for a
    * live one, the microphone free, starts it if and only if it is listed and strictly more important; the over-package
    * of the running one leads to idle; everything else changes nothing. */
  lemma CommandDoes(nodes: seq<Node>, table: seq<Row>, active: StateObject, e: Event)
    requires ListOf(nodes, table) && UsableTable(table) && Listed(nodes, active)
    requires IsAnnouncing(active) && IsAnnouncement(e.c.ann)
    ensures Handle(nodes, active, e) ==
            if e.c.intercom != INTERCOM_IDLE then active
            else if DeclaredId(active) == e.c.ann then (if e.c.annActive == 0 then IdleAnn else active)
            else if e.c.annActive == 0 || (e.c.ann == LIVE_ANN_EVENT && !e.micFree && e.c.annActive == 1) then active
            else if Find(nodes, e.c.ann).Some? && Find(nodes, e.c.ann).value.priority < PriorityOf(nodes, active)
            then StateOf(e.c.ann) else active
  {
    UsableTableIsWellBuilt(nodes, table);
    if DeclaredId(active) == e.c.ann {
      OwnCommandDoes(nodes, active, e);
    } else {
      if Find(nodes, e.c.ann).Some? {
        ListedAnnouncement(nodes, table, e.c.ann);
      }
      OtherCommandDoes(nodes, active, e);
    }
  }

  // ---------- Runs ----------

  /** The events the list knows. */
  function Ids(nodes: seq<Node>): set<int> {
    set n | n in nodes :: n.id
  }

  /** The events more important than `p`. */
  ghost function Above(nodes: seq<Node>, p: nat): set<int> {
    set id | id in Ids(nodes) && Find(nodes, id).Some? && Find(nodes, id).value.priority < p
  }

  lemma SubsetIsSmaller(a: set<int>, b: set<int>, x: int)
    requires a <= b && x in b && x !in a
    ensures |a| < |b|
  {
    assert b == a + (b - a) && x in b - a;
  }

  /** While the machine runs it is asked for announcements, and rows of the table arrive. */
  datatype Happening = Ask(e: Event) | Arrive(row: Row)

  /** `takeovers` counts since the machine was last idle. */
  datatype Session = Session(nodes: seq<Node>, active: StateObject, takeovers: nat)

  function Step(s: Session, h: Happening): Session {
    match h
    case Ask(e) =>
      var next := Handle(s.nodes, s.active, e);
      if next == s.active then s
      else if next == IdleAnn then s.(active := IdleAnn, takeovers := 0)
      else s.(active := next, takeovers := s.takeovers + 1)
    case Arrive(row) =>
      s.(nodes := s.nodes + [NodeOf(row)])
  }

  function Run(s: Session, hs: seq<Happening>): Session
    decreases |hs|
  {
    if hs == [] then s else Run(Step(s, hs[0]), hs[1..])
  }

  /** The rows that arrive during a run. */
  function Rows(hs: seq<Happening>): seq<Row>
    decreases |hs|
  {
    if hs == [] then []
    else if hs[0].Arrive? then [hs[0].row] + Rows(hs[1..])
    else Rows(hs[1..])
  }

  /** Measured against `all`, the list at the end of the run. */
  ghost predicate Inv(all: seq<Node>, s: Session) {
    && s.nodes <= all && s.nodes != [] && s.nodes[0] == IDLE_NODE
    && Listed(s.nodes, s.active) && Listed(all, s.active)
    && (s.active == IdleAnn ==> s.takeovers == 0)
    && s.takeovers + |Above(all, PriorityOf(all, s.active))| < |Ids(all)|
  }

  lemma SameInLonger(nodes: seq<Node>, all: seq<Node>, id: int)
    requires nodes <= all && Find(nodes, id).Some?
    ensures Find(all, id) == Find(nodes, id)
  {
    assert all == nodes + all[|nodes|..];
    FindInLonger(nodes, all[|nodes|..], id);
  }

  /** A command has the same effect on the list so far as on the list at the end, if it has any. */
  lemma ChangeInLonger(nodes: seq<Node>, all: seq<Node>, active: StateObject, e: Event)
    requires nodes <= all && Handle(nodes, active, e) != active
    ensures Handle(all, active, e) == Handle(nodes, active, e)
  {
    SameInLonger(nodes, all, e.c.ann);
    SameInLonger(nodes, all, DeclaredId(active));
  }

  lemma TakeoverShrinks(all: seq<Node>, before: StateObject, next: StateObject)
    requires Listed(all, before) && Listed(all, next) && PriorityOf(all, next) < PriorityOf(all, before)
    ensures |Above(all, PriorityOf(all, next))| < |Above(all, PriorityOf(all, before))|
  {
    SubsetIsSmaller(Above(all, PriorityOf(all, next)), Above(all, PriorityOf(all, before)), DeclaredId(next));
  }

  lemma IdleIsNotAbove(all: seq<Node>)
    requires WellBuilt(all)
    ensures |Above(all, LOWEST_PRIORITY)| < |Ids(all)|
  {
    assert IDLE_NODE in all;
    SubsetIsSmaller(Above(all, LOWEST_PRIORITY), Ids(all), ANN_IDLE);
  }

  lemma AskKeepsInv(all: seq<Node>, s: Session, e: Event)
    requires WellBuilt(all) && Inv(all, s) && WellBuilt(s.nodes)
    ensures Inv(all, Step(s, Ask(e))) && Step(s, Ask(e)).nodes == s.nodes
  {
    var next := Handle(s.nodes, s.active, e);
    if next != s.active {
      ChangeIsTakeoverOrOwnOver(s.nodes, s.active, e);
      ChangeInLonger(s.nodes, all, s.active, e);
      ChangeIsTakeoverOrOwnOver(all, s.active, e);
      if next == IdleAnn {
        IdleIsNotAbove(all);
      } else {
        TakeoverShrinks(all, s.active, next);
      }
    }
  }

  lemma PrefixIsWellBuilt(nodes: seq<Node>, all: seq<Node>)
    requires WellBuilt(all) && nodes <= all && nodes != [] && nodes[0] == IDLE_NODE
    ensures WellBuilt(nodes)
  {
    forall id | Find(nodes, id).Some?
      ensures Find(all, id) == Find(nodes, id)
    {
      SameInLonger(nodes, all, id);
    }
  }

  /** The first of the arriving rows goes to the end of the list. */
  lemma AppendOne(nodes: seq<Node>, row: Row, rest: seq<Row>)
    ensures Appended(nodes, [row] + rest) == Appended(nodes + [NodeOf(row)], rest)
  {
    MapCons(NodeOf, row, rest);
    assert nodes + ([NodeOf(row)] + Map(NodeOf, rest)) == nodes + [NodeOf(row)] + Map(NodeOf, rest);
  }

  lemma MapCons<A, B>(f: A -> B, x: A, s: seq<A>)
    ensures Map(f, [x] + s) == [f(x)] + Map(f, s)
  {
  }

  lemma ArrivalKeepsInv(all: seq<Node>, s: Session, row: Row)
    requires Inv(all, s) && s.nodes + [NodeOf(row)] <= all
    ensures Inv(all, Step(s, Arrive(row)))
  {
    SameInLonger(s.nodes, s.nodes + [NodeOf(row)], DeclaredId(s.active));
  }

  lemma {:induction false} RunKeepsInv(all: seq<Node>, s: Session, hs: seq<Happening>)
    requires WellBuilt(all) && Inv(all, s)
    requires all == Appended(s.nodes, Rows(hs))
    ensures Inv(all, Run(s, hs))
    decreases |hs|
  {
    if hs != [] {
      if hs[0].Ask? {
        PrefixIsWellBuilt(s.nodes, all);
        AskKeepsInv(all, s, hs[0].e);
      } else {
        AppendOne(s.nodes, hs[0].row, Rows(hs[1..]));
        ArrivalKeepsInv(all, s, hs[0].row);
      }
      RunKeepsInv(all, Step(s, hs[0]), hs[1..]);
    }
  }

  /** Rows about different events have different priorities, and none but idle is as low as idle.  The same row
    * may occur several times. */
  ghost predicate UsableTable(table: seq<Row>) {
    && (forall i, j :: 0 <= i < |table| && 0 <= j < |table| && EventId(table[i].name) != EventId(table[j].name) ==>
          table[i].priority != table[j].priority)
    && (forall i :: 0 <= i < |table| ==>
          table[i].priority != LOWEST_PRIORITY || EventId(table[i].name) == ANN_IDLE)
  }

  lemma NodeHasRow(table: seq<Row>, n: Node) returns (k: nat)
    requires n in Map(NodeOf, table)
    ensures k < |table| && n == NodeOf(table[k])
  {
    k :| 0 <= k < |table| && Map(NodeOf, table)[k] == n;
  }

  lemma UsableTableIsWellBuilt(nodes: seq<Node>, table: seq<Row>)
    requires UsableTable(table) && ListOf(nodes, table)
    ensures WellBuilt(nodes) && |Ids(nodes)| <= |table| + 1
  {
    FoundIffNamed(nodes, table, ANN_IDLE);
    forall n | n in nodes
      ensures Sound(n)
    {
      if n != IDLE_NODE {
        var k := NodeHasRow(table, n);
      }
    }
    forall x, y | x != y && Find(nodes, x).Some? && Find(nodes, y).Some?
      ensures Find(nodes, x).value.priority != Find(nodes, y).value.priority
    {
      NodesDiffer(table, Find(nodes, x).value, Find(nodes, y).value);
    }
    FewIds(nodes, table);
  }

  lemma NodesDiffer(table: seq<Row>, n: Node, m: Node)
    requires UsableTable(table) && n.id != m.id
    requires (n == IDLE_NODE || n in Map(NodeOf, table)) && (m == IDLE_NODE || m in Map(NodeOf, table))
    ensures n.priority != m.priority
  {
    if n != IDLE_NODE {
      var i := NodeHasRow(table, n);
      if m != IDLE_NODE {
        var j := NodeHasRow(table, m);
      }
    } else {
      var j := NodeHasRow(table, m);
    }
  }

  /** The events that the rows are about. */
  function EventsOf(table: seq<Row>): set<int> {
    set k | 0 <= k < |table| :: EventId(table[k].name)
  }

  lemma {:induction false} FewEvents(table: seq<Row>)
    ensures |EventsOf(table)| <= |table|
  {
    if table != [] {
      var front, last := table[..|table| - 1], table[|table| - 1];
      FewEvents(front);
      assert EventsOf(table) == EventsOf(front) + {EventId(last.name)} by {
        forall id | id in EventsOf(table)
          ensures id in EventsOf(front) + {EventId(last.name)}
        {
          var k :| 0 <= k < |table| && EventId(table[k].name) == id;
          assert k < |front| ==> front[k] == table[k];
        }
        forall id | id in EventsOf(front)
          ensures id in EventsOf(table)
        {
          var k :| 0 <= k < |front| && EventId(front[k].name) == id;
          assert table[k] == front[k];
        }
      }
    }
  }

  lemma FewIds(nodes: seq<Node>, table: seq<Row>)
    requires ListOf(nodes, table)
    ensures Ids(nodes) == EventsOf(table) + {ANN_IDLE} && |Ids(nodes)| <= |table| + 1
  {
    forall id | id in Ids(nodes)
      ensures id in EventsOf(table) + {ANN_IDLE}
    {
      var n :| n in nodes && n.id == id;
      if n != IDLE_NODE {
        var k := NodeHasRow(table, n);
      }
    }
    forall id | id in EventsOf(table)
      ensures id in Ids(nodes)
    {
      var k :| 0 <= k < |table| && EventId(table[k].name) == id;
      assert Map(NodeOf, table)[k] == NodeOf(table[k]) && NodeOf(table[k]) in nodes;
    }
    assert IDLE_NODE in nodes;
    FewEvents(table);
  }

  /** From idle, over any run in which rows may arrive, and whatever the intercom and the microphone do, there are
    * never more takeovers in a row than there are different events other than idle in all the rows. */
  lemma TakeoversAreBoundedByEvents(table: seq<Row>, hs: seq<Happening>)
    requires UsableTable(table + Rows(hs))
    ensures Run(Session(PriorityList(table), IdleAnn, 0), hs).takeovers <= |EventsOf(table + Rows(hs)) - {ANN_IDLE}|
  {
    var nodes := PriorityList(table);
    var all := Appended(nodes, Rows(hs));
    var s := Session(nodes, IdleAnn, 0);
    PriorityListIsListOf(table);
    AppendedIsListOf(nodes, table, Rows(hs));
    UsableTableIsWellBuilt(all, table + Rows(hs));
    FewIds(all, table + Rows(hs));
    FoundIffNamed(nodes, table, ANN_IDLE);
    IdleIsNotAbove(all);
    RunKeepsInv(all, s, hs);
    assert Ids(all) == (EventsOf(table + Rows(hs)) - {ANN_IDLE}) + {ANN_IDLE};
  }

  // ---------- The default table ----------

  /** bcu_ann_priority_default_table. */
  const DEFAULT_TABLE: seq<Row> := [
    Row("OCC", 1), Row("MIC_3D5", 2), Row("EMERG", 4), Row("LIVE", 3),
    Row("TMS-AUTO", 6), Row("MANUAL", 5), Row("TMS-MANUAL", 7)]

  lemma {:induction false} FirstMatchDecides(options: seq<NamedId>, name: string, k: nat)
    requires k < |options| && NamesMatch(options[k].name, name)
    requires forall j :: 0 <= j < k ==> !NamesMatch(options[j].name, name)
    ensures IdFrom(options, name) == options[k].id
  {
    if k > 0 {
      assert !NamesMatch(options[0].name, name);
      FirstMatchDecides(options[1..], name, k - 1);
    }
  }

  lemma {:induction false} NoMatchIsNotFound(options: seq<NamedId>, name: string)
    requires forall j :: 0 <= j < |options| ==> !NamesMatch(options[j].name, name)
    ensures IdFrom(options, name) == NOT_FOUND
  {
    if options != [] {
      assert !NamesMatch(options[0].name, name);
      NoMatchIsNotFound(options[1..], name);
    }
  }

  lemma Differ(a: string, b: string, i: nat)
    requires i < |a| && i < |b| && a[i] != b[i]
    ensures !NamesMatch(a, b)
  {
  }

  /** What a name resolves to: the first option that is a beginning of it, or of which it is a beginning, and nothing if
    * there is none. */
  lemma NameResolvesByPrefix(name: string, k: nat)
    ensures k < |OPTIONS| && (OPTIONS[k].name <= name || name <= OPTIONS[k].name)
            && (forall j :: 0 <= j < k ==> !(OPTIONS[j].name <= name || name <= OPTIONS[j].name)) ==>
              EventId(name) == OPTIONS[k].id
    ensures (forall j :: 0 <= j < |OPTIONS| ==> !(OPTIONS[j].name <= name || name <= OPTIONS[j].name)) ==>
              EventId(name) == 0xFFFF_FFFF
  {
    ResolvesByPrefix(OPTIONS, name, k);
  }

  lemma ResolvesByPrefix(options: seq<NamedId>, name: string, k: nat)
    ensures k < |options| && (options[k].name <= name || name <= options[k].name)
            && (forall j :: 0 <= j < k ==> !(options[j].name <= name || name <= options[j].name)) ==>
              IdFrom(options, name) == options[k].id
    ensures (forall j :: 0 <= j < |options| ==> !(options[j].name <= name || name <= options[j].name)) ==>
              IdFrom(options, name) == 0xFFFF_FFFF
  {
    if k < |options| && NamesMatch(options[k].name, name)
       && (forall j :: 0 <= j < k ==> !NamesMatch(options[j].name, name)) {
      FirstMatchDecides(options, name, k);
    }
    if forall j :: 0 <= j < |options| ==> !NamesMatch(options[j].name, name) {
      NoMatchIsNotFound(options, name);
    }
  }

  // What the names in the default table resolve to.

  lemma ResolveOccAndLive()
    ensures EventId("OCC") == OCC_EVENT && EventId("LIVE") == LIVE_ANN_EVENT
  {
    Differ("OCC", "LIVE", 0);
    Differ("Outer3D5", "LIVE", 0);
    FirstMatchDecides(OPTIONS, "OCC", 0);
    FirstMatchDecides(OPTIONS, "LIVE", 2);
  }

  /** The option table knows the outer microphone under another name. */
  lemma ResolveMicrophone()
    ensures EventId("MIC_3D5") == NOT_FOUND
  {
    forall j | 0 <= j < |OPTIONS|
      ensures !NamesMatch(OPTIONS[j].name, "MIC_3D5")
    {
      Differ(OPTIONS[j].name, "MIC_3D5", if j == 4 then 1 else 0);
    }
    NoMatchIsNotFound(OPTIONS, "MIC_3D5");
  }

  lemma ResolveEmergency()
    ensures EventId("EMERG") == EMERG_ANN_EVENT
  {
    Differ("OCC", "EMERG", 0);
    Differ("Outer3D5", "EMERG", 0);
    Differ("LIVE", "EMERG", 0);
    FirstMatchDecides(OPTIONS, "EMERG", 3);
  }

  lemma ResolveManual()
    ensures EventId("MANUAL") == MANUAL_ANN_EVENT
  {
    Differ("OCC", "MANUAL", 0);
    Differ("Outer3D5", "MANUAL", 0);
    Differ("LIVE", "MANUAL", 0);
    Differ("EMERG", "MANUAL", 0);
    FirstMatchDecides(OPTIONS, "MANUAL", 4);
  }

  lemma ResolveTmsManual()
    ensures EventId("TMS-MANUAL") == TMS_MANUAL_ANN_EVENT
  {
    Differ("OCC", "TMS-MANUAL", 0);
    Differ("Outer3D5", "TMS-MANUAL", 0);
    Differ("LIVE", "TMS-MANUAL", 0);
    Differ("EMERG", "TMS-MANUAL", 0);
    Differ("MANUAL", "TMS-MANUAL", 0);
    FirstMatchDecides(OPTIONS, "TMS-MANUAL", 5);
  }

  lemma ResolveTmsAuto()
    ensures EventId("TMS-AUTO") == TMS_AUTO_ANN_EVENT
  {
    Differ("OCC", "TMS-AUTO", 0);
    Differ("Outer3D5", "TMS-AUTO", 0);
    Differ("LIVE", "TMS-AUTO", 0);
    Differ("EMERG", "TMS-AUTO", 0);
    Differ("MANUAL", "TMS-AUTO", 0);
    Differ("TMS-MANUAL", "TMS-AUTO", 4);
    FirstMatchDecides(OPTIONS, "TMS-AUTO", 6);
  }

  /** The event of each row of the default table: all but one resolve to the event they name. */
  lemma DefaultIds(i: nat)
    requires i < |DEFAULT_TABLE|
    ensures EventId(DEFAULT_TABLE[i].name) ==
            [OCC_EVENT, NOT_FOUND, EMERG_ANN_EVENT, LIVE_ANN_EVENT, TMS_AUTO_ANN_EVENT,
             MANUAL_ANN_EVENT, TMS_MANUAL_ANN_EVENT][i]
  {
    ResolveOccAndLive();
    ResolveMicrophone();
    ResolveEmergency();
    ResolveManual();
    ResolveTmsManual();
    ResolveTmsAuto();
  }

  lemma RowId(table: seq<Row>, k: nat)
    requires k < |table|
    ensures Map(NodeOf, table)[k].id == EventId(table[k].name)
  {
    assert Map(NodeOf, table)[k] == NodeOf(table[k]);
  }

  lemma DefaultIdsAreDistinct()
    ensures DistinctIds(Map(NodeOf, DEFAULT_TABLE))
  {
    var rows := Map(NodeOf, DEFAULT_TABLE);
    forall i, j | 0 <= i < j < |rows|
      ensures rows[i].id != rows[j].id
    {
      DefaultIds(i);
      DefaultIds(j);
      RowId(DEFAULT_TABLE, i);
      RowId(DEFAULT_TABLE, j);
    }
  }

  /** The default table meets the conditions of all results above. */
  lemma DefaultTableIsSound()
    ensures UsableTable(DEFAULT_TABLE) && DistinctIds(Map(NodeOf, DEFAULT_TABLE))
  {
    DefaultIdsAreDistinct();
    forall i | 0 <= i < |DEFAULT_TABLE|
      ensures DEFAULT_TABLE[i].priority != LOWEST_PRIORITY
    {
    }
  }

  /** With the default table no command about the outer microphone ever changes the running announcement. */
  lemma DefaultTableIgnoresMicrophone(active: StateObject, e: Event)
    requires e.c.ann == MIC_3D5_OUTER_EVENT
    ensures Handle(PriorityList(DEFAULT_TABLE), active, e) == active
  {
    forall k | 0 <= k < |DEFAULT_TABLE|
      ensures EventId(DEFAULT_TABLE[k].name) != MIC_3D5_OUTER_EVENT
    {
      DefaultIds(k);
    }
    PriorityListIsListOf(DEFAULT_TABLE);
    UnnamedEventIsIgnored(PriorityList(DEFAULT_TABLE), DEFAULT_TABLE, active, e);
  }

  // ---------- The code ----------

  ghost predicate SortedByPriority(table: seq<Row>) {
    forall i, j :: 0 <= i < j < |table| ==> table[i].priority <= table[j].priority
  }

  /** From position `k` on, each row is at most as important as everything in front of it. */
  ghost predicate Settled(s: seq<Row>, k: int) {
    forall a, b :: 0 <= a < b < |s| && k <= b ==> s[a].priority <= s[b].priority
  }

  ghost predicate IsLeastImportant(s: seq<Row>, i: int)
    requires 0 <= i < |s|
  {
    forall a :: 0 <= a < i ==> s[a].priority <= s[i].priority
  }

  method SwapNeighbours(table: array<Row>, i: nat)
    requires i + 1 < table.Length
    modifies table
    ensures table[..] == old(table[..])[i := old(table[i + 1])][i + 1 := old(table[i])]
    ensures multiset(table[..]) == multiset(old(table[..]))
  {
    table[i], table[i + 1] := table[i + 1], table[i];
  }

  lemma SwapKeepsOrder(s: seq<Row>, i: nat, last: nat)
    requires i < last < |s| && Settled(s, last + 1) && IsLeastImportant(s, i)
    requires s[i].priority > s[i + 1].priority
    ensures var t := s[i := s[i + 1]][i + 1 := s[i]];
            Settled(t, last + 1) && IsLeastImportant(t, i + 1)
  {
  }

  /** The inner loop: the least important of the first `last + 1` rows moves to `last`. */
  method BubblePass(table: array<Row>, last: nat)
    requires last < table.Length && Settled(table[..], last + 1)
    modifies table
    ensures Settled(table[..], last)
    ensures multiset(table[..]) == multiset(old(table[..]))
  {
    var i := 0;
    while i < last
      invariant 0 <= i <= last
      invariant multiset(table[..]) == multiset(old(table[..]))
      invariant Settled(table[..], last + 1) && IsLeastImportant(table[..], i)
    {
      if table[i].priority > table[i + 1].priority {
        SwapKeepsOrder(table[..], i, last);
        SwapNeighbours(table, i);
      }
      i := i + 1;
    }
  }

  /** BcuDynamicStateSort: a bubble sort in place.  Sorting changes no search.  The C loop bound is unsigned, so the
    * table must not be empty. */
  method DynamicStateSort(table: array<Row>)
    requires table.Length > 0
    modifies table
    ensures SortedByPriority(table[..])
    ensures multiset(table[..]) == multiset(old(table[..]))
    ensures DistinctIds(Map(NodeOf, old(table[..]))) ==>
              forall id :: Find(PriorityList(table[..]), id) == Find(PriorityList(old(table[..])), id)
  {
    ghost var before := table[..];
    var n := table.Length;
    for j := 0 to n - 1
      invariant multiset(table[..]) == multiset(old(table[..]))
      invariant Settled(table[..], n - j)
    {
      BubblePass(table, n - j - 1);
    }
    if DistinctIds(Map(NodeOf, before)) {
      forall id
        ensures Find(PriorityList(table[..]), id) == Find(PriorityList(before), id)
      {
        SearchIgnoresTableOrder(before, table[..], id);
      }
    }
  }

  lemma ListGrows(table: seq<Row>)
    requires table != []
    ensures PriorityList(table) == PriorityList(table[1..]) + [NodeOf(table[0])]
  {
    assert Map(NodeOf, table)[1..] == Map(NodeOf, table[1..]);
  }

  class Machine {
    /** The linked list that starts at the idle node. */
    var nodes: seq<Node>
    var active: StateObject

    constructor ()
      ensures nodes == PriorityList([]) && active == IdleAnn
    {
      nodes := [IDLE_NODE];
      active := IdleAnn;
    }

    /** BcuAnnStateCreatePriorityList: the rows are linked in from the last to the first.  The first link cuts
      * off an older list behind the idle node; an empty table leaves it in place. */
    method CreatePriorityList(table: array<Row>)
      modifies this`nodes
      ensures nodes == if table.Length == 0 then old(nodes) else PriorityList(table[..])
    {
      var linked := [IDLE_NODE];
      var i := table.Length;
      while i > 0
        invariant 0 <= i <= table.Length
        invariant linked == PriorityList(table[i..])
        invariant nodes == if i == table.Length then old(nodes) else linked
      {
        var node := MakeNode(table[i - 1]);
        ListGrows(table[i - 1..]);
        assert table[i - 1..][1..] == table[i..];
        linked := linked + [node];
        nodes := linked;
        i := i - 1;
      }
    }

    /** BcuAnnStateCreatePriorityNode: the row received becomes the last node, whatever is listed already. */
    method CreatePriorityNode(row: Row)
      modifies this`nodes
      ensures nodes == Appended(old(nodes), [row])
    {
      var node := MakeNode(row);
      nodes := nodes + [node];
    }

    method MakeNode(row: Row) returns (n: Node)
      ensures n == NodeOf(row)
    {
      var id := FindId(row.name);
      var process := FindState(id);
      n := Node(id, row.priority, process);
    }

    method FindId(name: string) returns (id: int)
      ensures id == EventId(name)
    {
      var j := 0;
      while j < |OPTIONS|
        invariant 0 <= j <= |OPTIONS| && IdFrom(OPTIONS[j..], name) == EventId(name)
      {
        assert OPTIONS[j..][1..] == OPTIONS[j + 1..];
        if NamesMatch(OPTIONS[j].name, name) {
          return OPTIONS[j].id;
        }
        j := j + 1;
      }
      id := NOT_FOUND;
    }

    method FindState(id: int) returns (o: Option<StateObject>)
      ensures o == StateFrom(ALL_STATES, id)
    {
      o := FindIn(ALL_STATES, id);
    }

    static method FindIn(states: seq<StateObject>, id: int) returns (o: Option<StateObject>)
      ensures o == StateFrom(states, id)
    {
      var j := 0;
      while j < |states|
        invariant 0 <= j <= |states| && StateFrom(states[j..], id) == StateFrom(states, id)
      {
        assert states[j..][1..] == states[j + 1..];
        if DeclaredId(states[j]) == id {
          return Some(states[j]);
        }
        j := j + 1;
      }
      o := None;
    }

    /** BcuAnnStatePriorityListSearch. */
    method Search(id: int) returns (r: Option<Node>)
      ensures r == Find(nodes, id)
    {
      var k := 0;
      while k < |nodes|
        invariant 0 <= k <= |nodes| && Find(nodes[k..], id) == Find(nodes, id)
      {
        assert nodes[k..][1..] == nodes[k + 1..];
        if nodes[k].id == id {
          return Some(nodes[k]);
        }
        k := k + 1;
      }
      r := None;
    }

    /** BcuDynamicStateExchange; the exit and enter functions called around the assignment to `active` touch
      * neither the list nor the active announcement. */
    method DynamicStateExchange(c: Command)
      modifies this`active
      ensures active == Exchange(nodes, old(active), c)
    {
      if c.intercom == INTERCOM_IDLE && c.ann != ANN_IDLE {
        if EventFamily(DeclaredId(active)) == 0 {
          var newNode := Search(c.ann);
          var currentNode := Search(DeclaredId(active));
          if newNode.Some? && currentNode.Some? {
            if newNode.value.priority <= currentNode.value.priority {
              var target := newNode.value;
              if IsOverPackage(c) {
                if newNode.value.id == currentNode.value.id {
                  target := IDLE_NODE;
                }
              }
              if target.process.Some? {
                active := target.process.value;
              }
            }
          }
        }
      }
    }

    /** ANNStateHangle. */
    method ANNStateHangle(e: Event)
      modifies this`active
      ensures active == Handle(nodes, old(active), e)
    {
      if e.c.ann != ANN_IDLE {
        if WantsExchange(DeclaredId(active), e.intercomId, e.c) {
          if e.c.ann == LIVE_ANN_EVENT && !e.micFree && e.c.annActive == 1 {
          } else {
            DynamicStateExchange(e.c);
          }
        }
      }
    }
  }
}
