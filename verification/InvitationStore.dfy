/** The asynchronous writer of invitation_store.py.  Callers change two shards in memory
    under a lock and leave marks in a queue; one writer thread takes marks and writes whole
    shards to files, copying a shard without the lock and reading its records, which the
    callers may be changing, while it writes. */
module InvitationStore {
  import opened Basics

  type Id = nat
  type Obj = nat

  datatype Status = Pending | Accepted | Rejected | Expired | Other

  predicate Terminal(st: Status) { st in {Accepted, Rejected, Expired} }

  /** A record: the entries of the dict that the store looks at, and the others. */
  datatype Rec = Rec(status: Status, expiresAt: int, fields: map<nat, int>)

  /** One assignment to an entry of a record.  The keyword arguments of an update may name
      any entry, the status and the expiry too. */
  datatype Entry = ToStatus(status: Status) | ToExpiresAt(time: int) | ToField(key: nat, value: int)

  function Assign(r: Rec, e: Entry): Rec {
    match e
    case ToStatus(st) => r.(status := st)
    case ToExpiresAt(time) => r.(expiresAt := time)
    case ToField(k, v) => r.(fields := r.fields[k := v])
  }

  /** The status that is left by setting it to st and then making the assignments. */
  function LastStatus(st: Status, extra: seq<Entry>): Status
    decreases |extra|
  {
    if extra == [] then st else LastStatus(if extra[0].ToStatus? then extra[0].status else st, extra[1..])
  }

  const EXPIRED_AT := 0

  datatype Shard = Active | Archive

  /** The shards hold references to records; a record keeps its identity when it moves. */
  datatype Memory = Memory(active: map<Id, Obj>, archive: map<Id, Obj>, recs: map<Obj, Rec>)

  function ShardOf(mem: Memory, s: Shard): map<Id, Obj> {
    if s == Active then mem.active else mem.archive
  }

  /** What a file that is up to date with a shard holds. */
  function Image(shard: map<Id, Obj>, recs: map<Obj, Rec>): map<Id, Rec> {
    map i | i in shard && shard[i] in recs :: recs[shard[i]]
  }

  // ---- what callers do, in steps ----

  datatype Op =
    | SetStatus(obj: Obj, status: Status)
    | SetField(obj: Obj, entry: Entry)
    | Create(obj: Obj, rec: Rec)
    | Add(shard: Shard, id: Id, what: Obj)
    | Del(from: Shard, key: Id)
    | Mark(target: Shard)
    | Release

  function Exec(op: Op, mem: Memory): Memory {
    match op
    case SetStatus(o, st) => if o in mem.recs then mem.(recs := mem.recs[o := mem.recs[o].(status := st)]) else mem
    case SetField(o, e) => if o in mem.recs then mem.(recs := mem.recs[o := Assign(mem.recs[o], e)]) else mem
    case Create(o, r) => mem.(recs := mem.recs[o := r])
    case Add(s, i, o) => if s == Active then mem.(active := mem.active[i := o]) else mem.(archive := mem.archive[i := o])
    case Del(s, i) => if s == Active then mem.(active := mem.active - {i}) else mem.(archive := mem.archive - {i})
    case _ => mem
  }

  function ExecAll(ops: seq<Op>, mem: Memory): Memory
    decreases |ops|
  {
    if ops == [] then mem else ExecAll(ops[1..], Exec(ops[0], mem))
  }

  /** A call to the store.  `obj` is the address of the new dict; `order` is the order in
      which the sweep comes across the expired invitations. */
  datatype Call =
    | Put(id: Id, rec: Rec, obj: Obj)
    | UpdateStatus(id: Id, status: Status, extra: seq<Entry>)
    | SweepExpired(now: int, order: seq<Id>)

  function SetFields(o: Obj, extra: seq<Entry>): seq<Op> {
    if extra == [] then [] else [SetField(o, extra[0])] + SetFields(o, extra[1..])
  }

  function SweepOps(mem: Memory, order: seq<Id>, now: int): seq<Op> {
    if order == [] then []
    else if order[0] !in mem.active then SweepOps(mem, order[1..], now)
    else
      var o := mem.active[order[0]];
      [SetStatus(o, Expired), SetField(o, ToField(EXPIRED_AT, now)), Add(Archive, order[0], o), Del(Active, order[0])] + SweepOps(mem, order[1..], now)
  }

  /** The steps of a call that has just got the lock. */
  function Program(call: Call, mem: Memory): seq<Op> {
    match call
    case Put(i, r, o) => [Create(o, r), Add(Active, i, o), Release, Mark(Active)]
    case UpdateStatus(i, st, extra) =>
      if i in mem.active then
        var o := mem.active[i];
        [SetStatus(o, st)] + SetFields(o, extra)
        + (if Terminal(st) then [Add(Archive, i, o), Del(Active, i), Mark(Active), Mark(Archive), Release] else [Mark(Active), Release])
      else if i in mem.archive then
        [SetStatus(mem.archive[i], st)] + SetFields(mem.archive[i], extra) + [Mark(Archive), Release]
      else [Release]
    case SweepExpired(now, order) =>
      SweepOps(mem, order, now) + [Release] + if order != [] then [Mark(Active), Mark(Archive)] else []
  }

  /** The invitations that a sweep at `now` is to move, in some order. */
  ghost predicate AllExpired(mem: Memory, order: seq<Id>, now: int) {
    && (forall i, j :: 0 <= i < j < |order| ==> order[i] != order[j])
    && forall i :: i in order <==> i in mem.active && mem.active[i] in mem.recs
                                   && mem.recs[mem.active[i]].status == Pending && mem.recs[mem.active[i]].expiresAt <= now
  }

  // ---- the whole system ----

  /** The writer collects marks, or has shards still to flush; `snap` is the copy of the
      first of them once it has been made, and `touched` says that a record in it has been
      changed since. */
  datatype Writer =
    | Collecting(items: seq<Shard>)
    | Flushing(todo: seq<Shard>)
    | Writing(todo: seq<Shard>, snap: map<Id, Obj>, touched: bool)

  /** `holder` is what the caller with the lock has still to do, `tails` what callers that
      have released it have. */
  datatype System = System(
    mem: Memory, holder: seq<Op>, tails: seq<seq<Op>>, queue: seq<Shard>,
    writer: Writer, activeFile: map<Id, Rec>, archiveFile: map<Id, Rec>)

  function FileOf(s: System, shard: Shard): map<Id, Rec> {
    if shard == Active then s.activeFile else s.archiveFile
  }

  datatype Step =
    | Begin(call: Call) | Advance | AdvanceTail(i: nat)
    | Take | Decide | Copy | Finish(content: Option<map<Id, Rec>>)

  function Touch(w: Writer, op: Op): Writer {
    match w
    case Writing(todo, snap, touched) =>
      if (op.SetStatus? || op.SetField?) && op.obj in snap.Values then w.(touched := true) else w
    case _ => w
  }

  /** The shards to flush, in the order in which the writer flushes them. */
  function Dirty(items: seq<Shard>): seq<Shard> {
    (if Active in items then [Active] else []) + (if Archive in items then [Archive] else [])
  }

  ghost predicate Enabled(s: System, step: Step) {
    match step
    case Begin(call) =>
      && s.holder == []
      && (call.Put? ==> call.obj !in s.mem.recs)
      && (call.SweepExpired? ==> AllExpired(s.mem, call.order, call.now))
    case Advance => s.holder != []
    case AdvanceTail(i) => i < |s.tails| && s.tails[i] != []
    case Take => s.writer.Collecting? && s.queue != []
    case Decide => s.writer.Collecting?
    case Copy => s.writer.Flushing? && s.writer.todo != []
    case Finish(content) =>
      s.writer.Writing? && s.writer.todo != [] && (!s.writer.touched ==> content == Some(Image(s.writer.snap, s.mem.recs)))
  }

  function Next(s: System, step: Step): System {
    match step
    case Begin(call) => s.(holder := Program(call, s.mem))
    case Advance =>
      if s.holder == [] then s
      else if s.holder[0].Release? then s.(holder := [], tails := s.tails + [s.holder[1..]])
      else if s.holder[0].Mark? then s.(holder := s.holder[1..], queue := s.queue + [s.holder[0].target])
      else s.(holder := s.holder[1..], mem := Exec(s.holder[0], s.mem), writer := Touch(s.writer, s.holder[0]))
    case AdvanceTail(i) =>
      if i < |s.tails| && s.tails[i] != [] then
        s.(tails := s.tails[i := s.tails[i][1..]], queue := if s.tails[i][0].Mark? then s.queue + [s.tails[i][0].target] else s.queue)
      else s
    case Take =>
      if s.writer.Collecting? && s.queue != [] then s.(queue := s.queue[1..], writer := Collecting(s.writer.items + [s.queue[0]])) else s
    case Decide =>
      if s.writer.Collecting? then s.(writer := if Dirty(s.writer.items) == [] then Collecting([]) else Flushing(Dirty(s.writer.items))) else s
    case Copy =>
      if s.writer.Flushing? && s.writer.todo != [] then s.(writer := Writing(s.writer.todo, ShardOf(s.mem, s.writer.todo[0]), false)) else s
    case Finish(content) =>
      if s.writer.Writing? && s.writer.todo != [] then
        var w := if |s.writer.todo| == 1 then Collecting([]) else Flushing(s.writer.todo[1..]);
        match content
        case None => s.(writer := w)
        case Some(f) => if s.writer.todo[0] == Active then s.(writer := w, activeFile := f) else s.(writer := w, archiveFile := f)
      else s
  }

  // ---- the invariant ----

  /** A caller is about to leave a mark for the shard. */
  ghost predicate Owed(s: System, shard: Shard) {
    Mark(shard) in s.holder || exists i :: 0 <= i < |s.tails| && Mark(shard) in s.tails[i]
  }

  ghost predicate HeldMark(w: Writer, shard: Shard) {
    match w
    case Collecting(items) => shard in items
    case Flushing(todo) => shard in todo
    case Writing(todo, _, _) => shard in todo
  }

  ghost predicate Coming(s: System, shard: Shard) {
    shard in s.queue || Owed(s, shard)
  }

  /** The step changes what a file of the shard should hold. */
  ghost predicate Affects(op: Op, mem: Memory, shard: Shard) {
    match op
    case SetStatus(o, _) => o in ShardOf(mem, shard).Values
    case SetField(o, _) => o in ShardOf(mem, shard).Values
    case Create(o, _) => o in ShardOf(mem, shard).Values
    case Add(sh, _, _) => sh == shard
    case Del(sh, _) => sh == shard
    case _ => false
  }

  /** Every step that changes a shard is followed by a mark for it; new records are new,
      and only records go into shards. */
  ghost predicate Covered(ops: seq<Op>, mem: Memory)
    decreases |ops|
  {
    ops == [] || (
      && (forall shard :: Affects(ops[0], mem, shard) ==> Mark(shard) in ops[1..])
      && (ops[0].Create? ==> ops[0].obj !in mem.recs) && (ops[0].Add? ==> ops[0].what in mem.recs)
      && Covered(ops[1..], Exec(ops[0], mem)))
  }

  ghost predicate OnlyMarks(ops: seq<Op>) {
    forall op :: op in ops ==> op.Mark?
  }

  /** After the lock has been released there are only marks to leave. */
  ghost predicate MarksLast(ops: seq<Op>) {
    forall i :: 0 <= i < |ops| && ops[i] == Release ==> OnlyMarks(ops[i + 1..])
  }

  ghost predicate Refers(shard: map<Id, Obj>, recs: map<Obj, Rec>) {
    forall i :: i in shard ==> shard[i] in recs
  }

  /** Every reference in a shard or in the copy is to a record. */
  ghost predicate Sound(s: System) {
    Refers(s.mem.active, s.mem.recs) && Refers(s.mem.archive, s.mem.recs) && (s.writer.Writing? ==> Refers(s.writer.snap, s.mem.recs))
  }

  /** The file of a shard is up to date or somebody knows that it is not. */
  ghost predicate CatchesUp(s: System, shard: Shard) {
    FileOf(s, shard) == Image(ShardOf(s.mem, shard), s.mem.recs) || Coming(s, shard) || HeldMark(s.writer, shard)
  }

  /** A copy being written is still what the shard holds, or a mark is coming. */
  ghost predicate CopyOk(s: System) {
    s.writer.Writing? && s.writer.todo != [] ==>
      Coming(s, s.writer.todo[0]) || (s.writer.snap == ShardOf(s.mem, s.writer.todo[0]) && !s.writer.touched)
  }

  ghost predicate WriterOk(w: Writer) {
    !w.Collecting? ==> w.todo == [Active, Archive] || w.todo == [Active] || w.todo == [Archive]
  }

  /** No record is in two places of the active shard, or in both shards. */
  ghost predicate Apart(mem: Memory) {
    && (forall i, j :: i in mem.active && j in mem.active && i != j ==> mem.active[i] != mem.active[j])
    && forall i, j :: i in mem.active && j in mem.archive ==> mem.active[i] != mem.archive[j]
  }

  ghost predicate Inv(s: System) {
    && WriterOk(s.writer) && CopyOk(s) && (forall shard :: CatchesUp(s, shard)) && Sound(s)
    && Covered(s.holder, s.mem) && MarksLast(s.holder) && (forall i :: 0 <= i < |s.tails| ==> OnlyMarks(s.tails[i]))
    && Apart(ExecAll(s.holder, s.mem))
  }

  // ---- programs ----

  /** What is still covered does not depend on the contents of the records. */
  lemma {:induction false} CoveredAlike(ops: seq<Op>, a: Memory, b: Memory)
    requires Covered(ops, a) && b == a.(recs := b.recs) && b.recs.Keys == a.recs.Keys
    ensures Covered(ops, b)
    decreases |ops|
  {
    if ops != [] { CoveredAlike(ops[1..], Exec(ops[0], a), Exec(ops[0], b)); }
  }

  lemma {:induction false} FieldsCovered(o: Obj, extra: seq<Entry>, tail: seq<Op>, mem: Memory)
    requires Covered(tail, mem) && forall shard :: o in ShardOf(mem, shard).Values ==> Mark(shard) in tail
    ensures Covered(SetFields(o, extra) + tail, mem)
    decreases |extra|
  {
    if extra == [] {
      assert SetFields(o, extra) + tail == tail;
    } else {
      var op, ops := SetField(o, extra[0]), SetFields(o, extra[1..]) + tail;
      var m := Exec(op, mem);
      CoveredAlike(tail, mem, m);
      FieldsCovered(o, extra[1..], tail, m);
      assert SetFields(o, extra) + tail == [op] + ops;
      assert ([op] + ops)[1..] == ops;
    }
  }

  lemma UpdateCovered(o: Obj, st: Status, extra: seq<Entry>, tail: seq<Op>, mem: Memory)
    requires Covered(tail, mem) && forall shard :: o in ShardOf(mem, shard).Values ==> Mark(shard) in tail
    ensures Covered([SetStatus(o, st)] + SetFields(o, extra) + tail, mem)
  {
    var op := SetStatus(o, st);
    var m := Exec(op, mem);
    CoveredAlike(tail, mem, m);
    FieldsCovered(o, extra, tail, m);
    var ops := SetFields(o, extra) + tail;
    assert [op] + SetFields(o, extra) + tail == [op] + ops && ([op] + ops)[1..] == ops;
  }

  /** Moves are covered by marks for both shards. */
  lemma {:induction false} SweepCovered(mem: Memory, order: seq<Id>, now: int, tail: seq<Op>, m: Memory)
    requires Mark(Active) in tail && Mark(Archive) in tail && (forall x: Memory :: Covered(tail, x))
    requires Refers(mem.active, mem.recs) && m.recs.Keys == mem.recs.Keys
    ensures Covered(SweepOps(mem, order, now) + tail, m)
    decreases |order|
  {
    if order == [] {
      assert SweepOps(mem, order, now) + tail == tail;
    } else if order[0] !in mem.active {
      SweepCovered(mem, order[1..], now, tail, m);
    } else {
      var o := mem.active[order[0]];
      var a, b, c, d := SetStatus(o, Expired), SetField(o, ToField(EXPIRED_AT, now)), Add(Archive, order[0], o), Del(Active, order[0]);
      var rest := SweepOps(mem, order[1..], now) + tail;
      SweepCovered(mem, order[1..], now, tail, Exec(d, Exec(c, Exec(b, Exec(a, m)))));
      assert SweepOps(mem, order, now) + tail == [a, b, c, d] + rest;
      FourCovered(a, b, c, d, rest, m);
    }
  }

  lemma CoveredMore(op: Op, rest: seq<Op>, m: Memory)
    requires Mark(Active) in rest && Mark(Archive) in rest && Covered(rest, Exec(op, m))
    requires !op.Create? && (op.Add? ==> op.what in m.recs)
    ensures Covered([op] + rest, m)
  {
    assert ([op] + rest)[1..] == rest;
  }

  lemma FourParts(a: Op, b: Op, c: Op, d: Op, rest: seq<Op>)
    ensures [a, b, c, d] + rest == [a] + ([b] + ([c] + ([d] + rest)))
  {
  }

  lemma FourCovered(a: Op, b: Op, c: Op, d: Op, rest: seq<Op>, m: Memory)
    requires Mark(Active) in rest && Mark(Archive) in rest && a.SetStatus? && b.SetField? && c.Add? && d.Del? && c.what in m.recs
    requires Covered(rest, Exec(d, Exec(c, Exec(b, Exec(a, m)))))
    ensures Covered([a, b, c, d] + rest, m)
  {
    hide Covered;
    FourParts(a, b, c, d, rest);
    var m1 := Exec(a, m);
    var m2 := Exec(b, m1);
    var m3 := Exec(c, m2);
    var r1 := [d] + rest;
    var r2 := [c] + r1;
    var r3 := [b] + r2;
    CoveredMore(d, rest, m3);
    CoveredMore(c, r1, m2);
    CoveredMore(b, r2, m1);
    CoveredMore(a, r3, m);
  }

  lemma MarksCovered(ops: seq<Op>, m: Memory)
    requires forall op :: op in ops ==> op.Mark? || op.Release?
    ensures Covered(ops, m)
    decreases |ops|
  {
    if ops != [] {
      assert ops[0] in ops && Exec(ops[0], m) == m;
      MarksCovered(ops[1..], m);
    }
  }

  lemma MoveCovered(i: Id, o: Obj, mem: Memory)
    requires o in mem.recs
    ensures Covered([Add(Archive, i, o), Del(Active, i), Mark(Active), Mark(Archive), Release], mem)
  {
    var tail := [Mark(Active), Mark(Archive), Release];
    var m := Exec(Del(Active, i), Exec(Add(Archive, i, o), mem));
    MarksCovered(tail, m);
    assert ([Del(Active, i)] + tail)[1..] == tail;
    assert Covered([Del(Active, i)] + tail, Exec(Add(Archive, i, o), mem));
    assert [Add(Archive, i, o), Del(Active, i), Mark(Active), Mark(Archive), Release][1..] == [Del(Active, i)] + tail;
  }

  lemma PutCovered(i: Id, r: Rec, o: Obj, mem: Memory)
    requires o !in mem.recs && Refers(mem.active, mem.recs) && Refers(mem.archive, mem.recs)
    ensures Covered(Program(Put(i, r, o), mem), mem)
  {
    var tail := [Release, Mark(Active)];
    var m := Exec(Create(o, r), mem);
    MarksCovered(tail, Exec(Add(Active, i, o), m));
    assert ([Add(Active, i, o)] + tail)[1..] == tail;
    assert Covered([Add(Active, i, o)] + tail, m);
    assert Program(Put(i, r, o), mem)[1..] == [Add(Active, i, o)] + tail;
  }

  /** Every call leaves a mark for each shard that it changes, after the change. */
  lemma ProgramCovered(call: Call, mem: Memory)
    requires Refers(mem.active, mem.recs) && Refers(mem.archive, mem.recs)
    requires call.Put? ==> call.obj !in mem.recs
    requires call.UpdateStatus? && call.id in mem.active ==> mem.active[call.id] !in mem.archive.Values
    requires call.UpdateStatus? && call.id !in mem.active && call.id in mem.archive ==> mem.archive[call.id] !in mem.active.Values
    ensures Covered(Program(call, mem), mem)
  {
    match call {
      case Put(i, r, o) => PutCovered(i, r, o, mem);
      case UpdateStatus(i, st, extra) =>
        if i in mem.active {
          var o := mem.active[i];
          if Terminal(st) {
            MoveCovered(i, o, mem);
            UpdateCovered(o, st, extra, [Add(Archive, i, o), Del(Active, i), Mark(Active), Mark(Archive), Release], mem);
          } else {
            MarksCovered([Mark(Active), Release], mem);
            UpdateCovered(o, st, extra, [Mark(Active), Release], mem);
          }
        } else if i in mem.archive {
          MarksCovered([Mark(Archive), Release], mem);
          UpdateCovered(mem.archive[i], st, extra, [Mark(Archive), Release], mem);
        } else {
          MarksCovered([Release], mem);
        }
      case SweepExpired(now, order) =>
        var tail := [Release] + if order != [] then [Mark(Active), Mark(Archive)] else [];
        forall x: Memory
          ensures Covered(tail, x)
        {
          MarksCovered(tail, x);
        }
        if order == [] {
          assert Program(call, mem) == tail;
        } else {
          assert tail[1] == Mark(Active) && tail[2] == Mark(Archive);
          SweepCovered(mem, order, now, tail, mem);
          assert Program(call, mem) == SweepOps(mem, order, now) + tail;
        }
    }
  }

  // ---- the effect of whole programs ----

  lemma {:induction false} ExecConcat(a: seq<Op>, b: seq<Op>, mem: Memory)
    ensures ExecAll(a + b, mem) == ExecAll(b, ExecAll(a, mem))
    decreases |a|
  {
    if a == [] {
      assert a + b == b;
    } else {
      assert (a + b)[1..] == a[1..] + b;
      ExecConcat(a[1..], b, Exec(a[0], mem));
    }
  }

  lemma {:induction false} MarksDoNothing(ops: seq<Op>, mem: Memory)
    requires forall op :: op in ops ==> op.Mark? || op.Release?
    ensures ExecAll(ops, mem) == mem
    decreases |ops|
  {
    if ops != [] {
      assert ops[0] in ops;
      MarksDoNothing(ops[1..], mem);
    }
  }

  /** The fields of one record change, nothing else does. */
  ghost predicate OnlyRecord(a: Memory, b: Memory, o: Obj) {
    b == a.(recs := b.recs) && b.recs.Keys == a.recs.Keys && forall p :: p in a.recs && p != o ==> b.recs[p] == a.recs[p]
  }

  lemma {:induction false} FieldsDo(o: Obj, extra: seq<Entry>, mem: Memory)
    ensures OnlyRecord(mem, ExecAll(SetFields(o, extra), mem), o)
    ensures o in mem.recs ==> ExecAll(SetFields(o, extra), mem).recs[o].status == LastStatus(mem.recs[o].status, extra)
    decreases |extra|
  {
    if extra != [] {
      var op := SetField(o, extra[0]);
      FieldsDo(o, extra[1..], Exec(op, mem));
      assert SetFields(o, extra)[1..] == SetFields(o, extra[1..]);
    }
  }

  /** The head of an update: the record gets its status and its fields. */
  lemma UpdateDoes(o: Obj, st: Status, extra: seq<Entry>, tail: seq<Op>, mem: Memory) returns (m: Memory)
    ensures ExecAll([SetStatus(o, st)] + SetFields(o, extra) + tail, mem) == ExecAll(tail, m)
    ensures OnlyRecord(mem, m, o) && (o in mem.recs ==> m.recs[o].status == LastStatus(st, extra))
    ensures Rewritten(mem, m, o, st, extra)
  {
    hide Assigned;
    var a := Exec(SetStatus(o, st), mem);
    m := ExecAll(SetFields(o, extra), a);
    ExecConcat([SetStatus(o, st)] + SetFields(o, extra), tail, mem);
    ExecConcat([SetStatus(o, st)], SetFields(o, extra), mem);
    assert [SetStatus(o, st)][1..] == [];
    assert ExecAll([SetStatus(o, st)], mem) == a;
    FieldsDo(o, extra, a);
    if o in mem.recs { FieldsAssign(o, extra, a); }
  }

  lemma MoveDoes(i: Id, o: Obj, mem: Memory)
    ensures ExecAll([Add(Archive, i, o), Del(Active, i), Mark(Active), Mark(Archive), Release], mem)
         == mem.(active := mem.active - {i}, archive := mem.archive[i := o])
  {
    hide ExecAll;
    var a, d, tail := Add(Archive, i, o), Del(Active, i), [Mark(Active), Mark(Archive), Release];
    assert [a, d] + tail == [a, d, Mark(Active), Mark(Archive), Release] && [a] + [d] == [a, d];
    ExecConcat([a, d], tail, mem);
    ExecConcat([a], [d], mem);
    ExecOne(a, mem);
    ExecOne(d, Exec(a, mem));
    MarksDoNothing(tail, Exec(d, Exec(a, mem)));
  }

  lemma ExecOne(op: Op, mem: Memory)
    ensures ExecAll([op], mem) == Exec(op, mem)
  {
    assert [op][1..] == [];
  }

  lemma PutDoes(i: Id, r: Rec, o: Obj, mem: Memory)
    ensures ExecAll(Program(Put(i, r, o), mem), mem) == mem.(active := mem.active[i := o], recs := mem.recs[o := r])
  {
    var tail := [Release, Mark(Active)];
    var m := Exec(Add(Active, i, o), Exec(Create(o, r), mem));
    MarksDoNothing(tail, m);
    assert Program(Put(i, r, o), mem) == [Create(o, r), Add(Active, i, o)] + tail;
    ExecConcat([Create(o, r), Add(Active, i, o)], tail, mem);
    assert [Create(o, r), Add(Active, i, o)][1..] == [Add(Active, i, o)] && [Add(Active, i, o)][1..] == [];
  }

  ghost predicate Disjoint(mem: Memory) {
    forall i :: i in mem.active ==> i !in mem.archive
  }

  ghost predicate NoTerminal(mem: Memory) {
    forall i :: i in mem.active && mem.active[i] in mem.recs ==> !Terminal(mem.recs[mem.active[i]].status)
  }

  /** The store at rest, if its callers take care: the shards share no id and the active
      shard holds no record in a terminal status. */
  ghost predicate Tidy(mem: Memory) {
    Apart(mem) && Disjoint(mem) && NoTerminal(mem)
  }

  /** The call does not put an id that is in the archive. */
  predicate FreshId(call: Call, mem: Memory) {
    call.Put? ==> call.id !in mem.archive
  }

  /** The call does not put a record in a terminal status, nor give one to an active
      record among the other arguments of an update to a status that is not terminal. */
  predicate PlainStatus(call: Call, mem: Memory) {
    match call
    case Put(_, r, _) => !Terminal(r.status)
    case UpdateStatus(i, st, extra) => i in mem.active && !Terminal(st) ==> !Terminal(LastStatus(st, extra))
    case SweepExpired(_, _) => true
  }

  /** Moving the invitation i of the record o, after changing that record only. */
  lemma MoveKeeps(mem: Memory, m: Memory, i: Id, o: Obj)
    requires Apart(mem) && i in mem.active && o == mem.active[i] && OnlyRecord(mem, m, o)
    ensures var r := m.(active := m.active - {i}, archive := m.archive[i := o]);
            Apart(r) && (Disjoint(mem) ==> Disjoint(r)) && (NoTerminal(mem) ==> NoTerminal(r))
  {
  }

  lemma MoveOps(i: Id, o: Obj, now: int, mem: Memory) returns (m: Memory)
    ensures OnlyRecord(mem, m, o) && (o in mem.recs ==> m.recs[o] == ExpiredRec(mem.recs[o], now))
    ensures ExecAll([SetStatus(o, Expired), SetField(o, ToField(EXPIRED_AT, now)), Add(Archive, i, o), Del(Active, i)], mem)
         == m.(active := m.active - {i}, archive := m.archive[i := o])
  {
    var a, b, c, d := SetStatus(o, Expired), SetField(o, ToField(EXPIRED_AT, now)), Add(Archive, i, o), Del(Active, i);
    m := Exec(b, Exec(a, mem));
    assert [a, b, c, d][1..] == [b, c, d] && [b, c, d][1..] == [c, d] && [c, d][1..] == [d] && [d][1..] == [];
    assert ExecAll([c, d], m) == ExecAll([d], Exec(c, m)) == Exec(d, Exec(c, m));
    assert ExecAll([a, b, c, d], mem) == ExecAll([b, c, d], Exec(a, mem)) == ExecAll([c, d], m);
  }

  /** A sweep moves the invitations that it came across, in any state in between. */
  lemma {:induction false} SweepKeeps(mem: Memory, order: seq<Id>, now: int, m: Memory)
    requires Apart(m) && forall i :: i in order && i in mem.active ==> i in m.active && m.active[i] == mem.active[i]
    requires forall i, j :: 0 <= i < j < |order| ==> order[i] != order[j]
    ensures var r := ExecAll(SweepOps(mem, order, now), m);
            Apart(r) && (Disjoint(m) ==> Disjoint(r)) && (NoTerminal(m) ==> NoTerminal(r))
    decreases |order|
  {
    if order != [] {
      assert forall j :: 0 < j < |order| ==> order[j] == order[1..][j - 1] && order[j] != order[0];
      if order[0] !in mem.active {
        SweepKeeps(mem, order[1..], now, m);
      } else {
        var i, o := order[0], mem.active[order[0]];
        var ops := [SetStatus(o, Expired), SetField(o, ToField(EXPIRED_AT, now)), Add(Archive, i, o), Del(Active, i)];
        var n := MoveOps(i, o, now, m);
        MoveKeeps(m, n, i, o);
        SweepKeeps(mem, order[1..], now, ExecAll(ops, m));
        ExecConcat(ops, SweepOps(mem, order[1..], now), m);
        assert SweepOps(mem, order, now) == ops + SweepOps(mem, order[1..], now);
      }
    }
  }

  /** Changing the record o of the active invitation i only. */
  lemma ChangeInPlace(mem: Memory, m: Memory, i: Id, o: Obj)
    requires Apart(mem) && Refers(mem.active, mem.recs) && i in mem.active && o == mem.active[i] && OnlyRecord(mem, m, o)
    ensures Apart(m) && (Disjoint(mem) ==> Disjoint(m))
    ensures NoTerminal(mem) ==> (NoTerminal(m) <==> !Terminal(m.recs[o].status))
  {
    assert m.active[i] == o;
  }

  lemma UpdateKeeps(call: Call, mem: Memory)
    requires call.UpdateStatus? && Apart(mem) && Refers(mem.active, mem.recs) && Refers(mem.archive, mem.recs)
    ensures var r := ExecAll(Program(call, mem), mem);
            && Apart(r) && (Disjoint(mem) ==> Disjoint(r))
            && (NoTerminal(mem) ==> (NoTerminal(r) <==> PlainStatus(call, mem)))
  {
    var i, st := call.id, call.status;
    if i in mem.active {
      var o := mem.active[i];
      if Terminal(st) {
        var tail := [Add(Archive, i, o), Del(Active, i), Mark(Active), Mark(Archive), Release];
        var m := UpdateDoes(o, st, call.extra, tail, mem);
        MoveDoes(i, o, m);
        MoveKeeps(mem, m, i, o);
      } else {
        var m := UpdateDoes(o, st, call.extra, [Mark(Active), Release], mem);
        MarksDoNothing([Mark(Active), Release], m);
        ChangeInPlace(mem, m, i, o);
      }
    } else if i in mem.archive {
      var m := UpdateDoes(mem.archive[i], st, call.extra, [Mark(Archive), Release], mem);
      MarksDoNothing([Mark(Archive), Release], m);
    } else {
      MarksDoNothing([Release], mem);
    }
  }

  /** Every call keeps the records apart; it keeps the shards disjoint exactly if it puts
      no id that is in the archive, and the active one free of terminal records exactly if
      it brings no terminal status in beside the parameter that the store looks at. */
  lemma ProgramKeeps(call: Call, mem: Memory)
    requires Apart(mem) && Refers(mem.active, mem.recs) && Refers(mem.archive, mem.recs)
    requires call.Put? ==> call.obj !in mem.recs
    requires call.SweepExpired? ==> AllExpired(mem, call.order, call.now)
    ensures var r := ExecAll(Program(call, mem), mem);
            && Apart(r)
            && (Disjoint(mem) ==> (Disjoint(r) <==> FreshId(call, mem)))
            && (NoTerminal(mem) ==> (NoTerminal(r) <==> PlainStatus(call, mem)))
  {
    hide ExecAll, SweepOps;
    match call {
      case Put(i, r, o) =>
        PutDoes(i, r, o, mem);
        assert i in mem.active[i := o];
      case UpdateStatus(_, _, _) => UpdateKeeps(call, mem);
      case SweepExpired(now, order) =>
        SweepKeeps(mem, order, now, mem);
        var tail := [Release] + if order != [] then [Mark(Active), Mark(Archive)] else [];
        ExecConcat(SweepOps(mem, order, now), tail, mem);
        MarksDoNothing(tail, ExecAll(SweepOps(mem, order, now), mem));
        assert Program(call, mem) == SweepOps(mem, order, now) + tail;
    }
  }

  // ---- what each call leaves in memory ----

  /** b is a after these assignments: the last one to an entry counts. */
  ghost predicate Assigned(a: Rec, extra: seq<Entry>, b: Rec) {
    StatusAssigned(a, extra, b) && ExpiryAssigned(a, extra, b) && forall k :: FieldAssigned(a, extra, b, k)
  }

  ghost predicate StatusAssigned(a: Rec, extra: seq<Entry>, b: Rec) {
    || (b.status == a.status && forall i :: 0 <= i < |extra| ==> !extra[i].ToStatus?)
    || exists i :: 0 <= i < |extra| && extra[i] == ToStatus(b.status) && forall j :: i < j < |extra| ==> !extra[j].ToStatus?
  }

  ghost predicate ExpiryAssigned(a: Rec, extra: seq<Entry>, b: Rec) {
    || (b.expiresAt == a.expiresAt && forall i :: 0 <= i < |extra| ==> !extra[i].ToExpiresAt?)
    || exists i :: 0 <= i < |extra| && extra[i] == ToExpiresAt(b.expiresAt) && forall j :: i < j < |extra| ==> !extra[j].ToExpiresAt?
  }

  predicate Sets(e: Entry, k: nat) { e.ToField? && e.key == k }

  ghost predicate FieldAssigned(a: Rec, extra: seq<Entry>, b: Rec, k: nat) {
    || ((forall i :: 0 <= i < |extra| ==> !Sets(extra[i], k)) && (k in b.fields <==> k in a.fields)
        && (k in a.fields ==> b.fields[k] == a.fields[k]))
    || (k in b.fields && exists i :: 0 <= i < |extra| && extra[i] == ToField(k, b.fields[k]) && forall j :: i < j < |extra| ==> !Sets(extra[j], k))
  }

  /** The memory b after a call in the memory a. */
  ghost predicate Effect(call: Call, a: Memory, b: Memory) {
    match call
    case Put(i, r, o) => b == Memory(a.active[i := o], a.archive, a.recs[o := r])
    case UpdateStatus(i, st, extra) =>
      if i in a.active then
        && (if st == Accepted || st == Rejected || st == Expired
            then b.active == a.active - {i} && b.archive == a.archive[i := a.active[i]]
            else b.active == a.active && b.archive == a.archive)
        && Rewritten(a, b, a.active[i], st, extra)
      else if i in a.archive then b.active == a.active && b.archive == a.archive && Rewritten(a, b, a.archive[i], st, extra)
      else b == a
    case SweepExpired(now, order) => Swept(a, b, now, order)
  }

  /** The record o has taken the status st and then the entries; the others are as before. */
  ghost predicate Rewritten(a: Memory, b: Memory, o: Obj, st: Status, extra: seq<Entry>) {
    && b.recs.Keys == a.recs.Keys && (forall p :: p in a.recs && p != o ==> b.recs[p] == a.recs[p])
    && (o in a.recs ==> Assigned(a.recs[o].(status := st), extra, b.recs[o]))
  }

  /** The invitations of `order` have moved, expired at `now`, and no others have changed. */
  ghost predicate Swept(a: Memory, b: Memory, now: int, order: seq<Id>) {
    && (forall i :: i in b.active <==> i in a.active && i !in order) && (forall i :: i in b.active ==> b.active[i] == a.active[i])
    && (forall i :: i in b.archive <==> i in a.archive || (i in a.active && i in order))
    && (forall i :: i in b.archive ==> b.archive[i] == if i in a.active && i in order then a.active[i] else a.archive[i])
    && b.recs.Keys == a.recs.Keys
    && (forall i :: i in order && i in a.active && a.active[i] in a.recs ==>
          b.recs[a.active[i]] == ExpiredRec(a.recs[a.active[i]], now))
    && (forall o :: o in a.recs && (forall i :: i in order && i in a.active ==> a.active[i] != o) ==> b.recs[o] == a.recs[o])
  }

  function ExpiredRec(r: Rec, now: int): Rec {
    Rec(Expired, r.expiresAt, r.fields[EXPIRED_AT := now])
  }

  lemma StatusFirst(a: Rec, extra: seq<Entry>, b: Rec)
    requires extra != [] && StatusAssigned(Assign(a, extra[0]), extra[1..], b)
    ensures StatusAssigned(a, extra, b)
  {
    var rest := extra[1..];
    assert forall i :: 1 <= i < |extra| ==> extra[i] == rest[i - 1];
    if i :| 0 <= i < |rest| && rest[i] == ToStatus(b.status) && forall j :: i < j < |rest| ==> !rest[j].ToStatus? {
      assert extra[i + 1] == ToStatus(b.status);
    } else if extra[0].ToStatus? {
      assert extra[0] == ToStatus(b.status);
    }
  }

  lemma ExpiryFirst(a: Rec, extra: seq<Entry>, b: Rec)
    requires extra != [] && ExpiryAssigned(Assign(a, extra[0]), extra[1..], b)
    ensures ExpiryAssigned(a, extra, b)
  {
    var rest := extra[1..];
    assert forall i :: 1 <= i < |extra| ==> extra[i] == rest[i - 1];
    if i :| 0 <= i < |rest| && rest[i] == ToExpiresAt(b.expiresAt) && forall j :: i < j < |rest| ==> !rest[j].ToExpiresAt? {
      assert extra[i + 1] == ToExpiresAt(b.expiresAt);
    } else if extra[0].ToExpiresAt? {
      assert extra[0] == ToExpiresAt(b.expiresAt);
    }
  }

  lemma FieldFirst(a: Rec, extra: seq<Entry>, b: Rec, k: nat)
    requires extra != [] && FieldAssigned(Assign(a, extra[0]), extra[1..], b, k)
    ensures FieldAssigned(a, extra, b, k)
  {
    var rest := extra[1..];
    assert forall i :: 1 <= i < |extra| ==> extra[i] == rest[i - 1];
    if k in b.fields {
      if i :| 0 <= i < |rest| && rest[i] == ToField(k, b.fields[k]) && forall j :: i < j < |rest| ==> !Sets(rest[j], k) {
        assert extra[i + 1] == ToField(k, b.fields[k]);
      } else if Sets(extra[0], k) {
        assert extra[0] == ToField(k, b.fields[k]);
      }
    }
  }

  lemma NothingAssigned(a: Rec)
    ensures Assigned(a, [], a)
  {
  }

  /** Setting the fields one after the other. */
  lemma {:induction false} FieldsAssign(o: Obj, extra: seq<Entry>, mem: Memory)
    requires o in mem.recs
    ensures o in ExecAll(SetFields(o, extra), mem).recs && Assigned(mem.recs[o], extra, ExecAll(SetFields(o, extra), mem).recs[o])
    decreases |extra|
  {
    hide StatusAssigned, ExpiryAssigned, FieldAssigned;
    var a, b := mem.recs[o], ExecAll(SetFields(o, extra), mem);
    if extra == [] {
      NothingAssigned(a);
    } else {
      var op := SetField(o, extra[0]);
      assert SetFields(o, extra)[1..] == SetFields(o, extra[1..]);
      assert b == ExecAll(SetFields(o, extra[1..]), Exec(op, mem));
      FieldsAssign(o, extra[1..], Exec(op, mem));
      StatusFirst(a, extra, b.recs[o]);
      ExpiryFirst(a, extra, b.recs[o]);
      forall k
        ensures FieldAssigned(a, extra, b.recs[o], k)
      {
        FieldFirst(a, extra, b.recs[o], k);
      }
    }
  }

  /** One more move at the front: n is m after the move of i. */
  lemma SweptFirst(m: Memory, n: Memory, r: Memory, now: int, i: Id, order: seq<Id>)
    requires order != [] && order[0] == i && i in m.active && i !in order[1..]
    requires n.active == m.active - {i} && n.archive == m.archive[i := m.active[i]]
    requires n.recs.Keys == m.recs.Keys && forall p :: p in m.recs && p != m.active[i] ==> n.recs[p] == m.recs[p]
    requires m.active[i] in m.recs ==> n.recs[m.active[i]] == ExpiredRec(m.recs[m.active[i]], now)
    requires Swept(n, r, now, order[1..])
    ensures Swept(m, r, now, order)
  {
    hide ExpiredRec;
    SweptShards(m, n, r, now, i, order);
    SweptRecords(m, n, r, now, i, order);
  }

  lemma SweptShards(m: Memory, n: Memory, r: Memory, now: int, i: Id, order: seq<Id>)
    requires order != [] && order[0] == i && i in m.active && i !in order[1..]
    requires n.active == m.active - {i} && n.archive == m.archive[i := m.active[i]] && Swept(n, r, now, order[1..])
    ensures forall j :: j in r.active <==> j in m.active && j !in order
    ensures forall j :: j in r.active ==> r.active[j] == m.active[j]
    ensures forall j :: j in r.archive <==> j in m.archive || (j in m.active && j in order)
    ensures forall j :: j in r.archive ==> r.archive[j] == if j in m.active && j in order then m.active[j] else m.archive[j]
  {
    hide ExpiredRec;
    assert order == [i] + order[1..];
    assert forall j :: j in order <==> j == i || j in order[1..];
  }

  lemma SweptRecords(m: Memory, n: Memory, r: Memory, now: int, i: Id, order: seq<Id>)
    requires order != [] && order[0] == i && i in m.active && n.active == m.active - {i} && i !in order[1..]
    requires n.recs.Keys == m.recs.Keys && forall p :: p in m.recs && p != m.active[i] ==> n.recs[p] == m.recs[p]
    requires m.active[i] in m.recs ==> n.recs[m.active[i]] == ExpiredRec(m.recs[m.active[i]], now)
    requires Swept(n, r, now, order[1..])
    ensures forall j :: j in order && j in m.active && m.active[j] in m.recs ==>
              r.recs[m.active[j]] == ExpiredRec(m.recs[m.active[j]], now)
    ensures forall o :: o in m.recs && (forall j :: j in order && j in m.active ==> m.active[j] != o) ==> r.recs[o] == m.recs[o]
  {
    assert order == [i] + order[1..];
    forall j | j in order && j in m.active && m.active[j] in m.recs
      ensures r.recs[m.active[j]] == ExpiredRec(m.recs[m.active[j]], now)
    {
      SweptRecord(m, n, r, now, i, order, m.active[j]);
    }
  }

  lemma SweptRecord(m: Memory, n: Memory, r: Memory, now: int, i: Id, order: seq<Id>, o: Obj)
    requires i in m.active && order != [] && n.active == m.active - {i} && i !in order[1..] && o in m.recs && o in n.recs && o in r.recs
    requires exists j :: (j == i || j in order[1..]) && j in m.active && m.active[j] == o
    requires n.recs[o] == if o == m.active[i] then ExpiredRec(m.recs[o], now) else m.recs[o]
    requires forall j :: j in order[1..] && j in n.active && n.active[j] == o ==> r.recs[o] == ExpiredRec(n.recs[o], now)
    requires (forall j :: j in order[1..] && j in n.active ==> n.active[j] != o) ==> r.recs[o] == n.recs[o]
    ensures r.recs[o] == ExpiredRec(m.recs[o], now)
  {
    if k :| k in order[1..] && k in n.active && n.active[k] == o { assert r.recs[o] == ExpiredRec(n.recs[o], now); }
  }

  /** A sweep that has found the ids of `order` moves them and expires their records. */
  lemma {:induction false} SweepDoes(mem: Memory, order: seq<Id>, now: int, m: Memory)
    requires forall i :: i in order ==> i in mem.active && i in m.active && m.active[i] == mem.active[i]
    requires forall i, j :: 0 <= i < j < |order| ==> order[i] != order[j]
    ensures Swept(m, ExecAll(SweepOps(mem, order, now), m), now, order)
    decreases |order|
  {
    hide Swept;
    if order == [] {
      NothingSwept(m, now);
    } else {
      var i, o := order[0], mem.active[order[0]];
      var ops := [SetStatus(o, Expired), SetField(o, ToField(EXPIRED_AT, now)), Add(Archive, i, o), Del(Active, i)];
      assert forall j :: 0 < j < |order| ==> order[j] == order[1..][j - 1] && order[j] != order[0];
      var k := MoveOps(i, o, now, m);
      var n := ExecAll(ops, m);
      SweepDoes(mem, order[1..], now, n);
      ExecConcat(ops, SweepOps(mem, order[1..], now), m);
      assert SweepOps(mem, order, now) == ops + SweepOps(mem, order[1..], now);
      SweptFirst(m, n, ExecAll(SweepOps(mem, order[1..], now), n), now, i, order);
    }
  }

  lemma NothingSwept(m: Memory, now: int)
    ensures Swept(m, m, now, [])
  {
  }

  /** What a call leaves in memory, said without its steps. */
  lemma ProgramDoes(call: Call, mem: Memory)
    requires call.SweepExpired? ==> AllExpired(mem, call.order, call.now)
    ensures Effect(call, mem, ExecAll(Program(call, mem), mem))
  {
    hide ExecAll, SweepOps, Swept, Rewritten;
    match call {
      case Put(i, r, o) => PutDoes(i, r, o, mem);
      case UpdateStatus(i, st, extra) => UpdateEffect(i, st, extra, mem);
      case SweepExpired(now, order) =>
        SweepDoes(mem, order, now, mem);
        var tail := [Release] + if order != [] then [Mark(Active), Mark(Archive)] else [];
        ExecConcat(SweepOps(mem, order, now), tail, mem);
        MarksDoNothing(tail, ExecAll(SweepOps(mem, order, now), mem));
        assert Program(call, mem) == SweepOps(mem, order, now) + tail;
    }
  }

  lemma UpdateEffect(i: Id, st: Status, extra: seq<Entry>, mem: Memory)
    ensures var call := UpdateStatus(i, st, extra); Effect(call, mem, ExecAll(Program(call, mem), mem))
  {
    hide ExecAll, Assigned;
    if i in mem.active {
      var o := mem.active[i];
      if Terminal(st) {
        var m := UpdateDoes(o, st, extra, [Add(Archive, i, o), Del(Active, i), Mark(Active), Mark(Archive), Release], mem);
        MoveDoes(i, o, m);
      } else {
        var m := UpdateDoes(o, st, extra, [Mark(Active), Release], mem);
        MarksDoNothing([Mark(Active), Release], m);
      }
    } else if i in mem.archive {
      var m := UpdateDoes(mem.archive[i], st, extra, [Mark(Archive), Release], mem);
      MarksDoNothing([Mark(Archive), Release], m);
    } else {
      MarksDoNothing([Release], mem);
    }
  }

  /** An update of a pending invitation to "pending" whose other arguments say "accepted"
      leaves a terminal record in the active shard. */
  lemma HiddenTerminalStatus()
    ensures var mem := Memory(map[7 := 0], map[], map[0 := Rec(Pending, 100, map[])]);
            Tidy(mem) && !NoTerminal(ExecAll(Program(UpdateStatus(7, Pending, [ToStatus(Accepted)]), mem), mem))
  {
    var mem := Memory(map[7 := 0], map[], map[0 := Rec(Pending, 100, map[])]);
    var call := UpdateStatus(7, Pending, [ToStatus(Accepted)]);
    assert call.extra[1..] == [];
    assert LastStatus(Accepted, []) == Accepted;
    assert !PlainStatus(call, mem);
    ProgramKeeps(call, mem);
  }

  /** A put of an id that is in the archive leaves it in both shards. */
  lemma ReusedId()
    ensures var mem := Memory(map[], map[7 := 0], map[0 := Rec(Accepted, 100, map[])]);
            Tidy(mem) && !Disjoint(ExecAll(Program(Put(7, Rec(Pending, 200, map[]), 1), mem), mem))
  {
    var mem := Memory(map[], map[7 := 0], map[0 := Rec(Accepted, 100, map[])]);
    ProgramKeeps(Put(7, Rec(Pending, 200, map[]), 1), mem);
  }

  // ---- every step keeps the invariant ----

  lemma BeginKeeps(s: System, call: Call)
    requires Inv(s) && Enabled(s, Begin(call))
    ensures Inv(Next(s, Begin(call)))
  {
    var r := Next(s, Begin(call));
    ProgramCovered(call, s.mem);
    ProgramKeeps(call, s.mem);
    MarksAreLast(call, s.mem);
    forall shard
      ensures CatchesUp(r, shard) && (Coming(s, shard) ==> Coming(r, shard))
    {
      assert CatchesUp(s, shard);
      OwedStays(s, r, shard);
    }
  }

  lemma OwedStays(s: System, r: System, shard: Shard)
    requires r.tails == s.tails && (Mark(shard) in s.holder ==> Mark(shard) in r.holder)
    ensures Owed(s, shard) ==> Owed(r, shard)
  {
  }

  lemma {:induction false} SweepHasNoRelease(mem: Memory, order: seq<Id>, now: int)
    ensures Release !in SweepOps(mem, order, now)
    decreases |order|
  {
    if order != [] { SweepHasNoRelease(mem, order[1..], now); }
  }

  lemma {:induction false} FieldsHaveNoRelease(o: Obj, extra: seq<Entry>)
    ensures Release !in SetFields(o, extra)
  {
    if extra != [] { FieldsHaveNoRelease(o, extra[1..]); }
  }

  lemma LastPart(a: seq<Op>, b: seq<Op>)
    requires Release !in a && MarksLast(b)
    ensures MarksLast(a + b)
  {
    var ops := a + b;
    forall i | 0 <= i < |ops| && ops[i] == Release
      ensures OnlyMarks(ops[i + 1..])
    {
      assert i >= |a|;
      assert b[i - |a|] == Release && ops[i + 1..] == b[i - |a| + 1..];
    }
  }

  lemma MarksAreLast(call: Call, mem: Memory)
    ensures MarksLast(Program(call, mem))
  {
    hide MarksLast, SetFields, SweepOps;
    match call {
      case Put(i, r, o) =>
        ReleaseThenMarks([Mark(Active)]);
        LastPart([Create(o, r), Add(Active, i, o)], [Release, Mark(Active)]);
        assert Program(call, mem) == [Create(o, r), Add(Active, i, o)] + [Release, Mark(Active)];
      case UpdateStatus(i, st, extra) => UpdateMarksAreLast(i, st, extra, mem);
      case SweepExpired(now, order) =>
        var marks := if order != [] then [Mark(Active), Mark(Archive)] else [];
        SweepHasNoRelease(mem, order, now);
        ReleaseThenMarks(marks);
        LastPart(SweepOps(mem, order, now), [Release] + marks);
        assert Program(call, mem) == SweepOps(mem, order, now) + ([Release] + marks);
    }
  }

  lemma UpdateMarksAreLast(i: Id, st: Status, extra: seq<Entry>, mem: Memory)
    ensures MarksLast(Program(UpdateStatus(i, st, extra), mem))
  {
    hide MarksLast, SetFields;
    ReleaseThenMarks([]);
    assert [Release] + [] == [Release];
    if i in mem.active || i in mem.archive {
      var o := if i in mem.active then mem.active[i] else mem.archive[i];
      FieldsHaveNoRelease(o, extra);
      var tail := if i !in mem.active then [Mark(Archive)]
                  else if Terminal(st) then [Add(Archive, i, o), Del(Active, i), Mark(Active), Mark(Archive)] else [Mark(Active)];
      var head := [SetStatus(o, st)] + SetFields(o, extra) + tail;
      LastPart(head, [Release]);
      assert Program(UpdateStatus(i, st, extra), mem) == head + [Release];
    }
  }

  lemma ReleaseThenMarks(marks: seq<Op>)
    requires OnlyMarks(marks)
    ensures MarksLast([Release] + marks)
  {
    var ops := [Release] + marks;
    assert forall j :: 1 <= j < |ops| ==> ops[j] == marks[j - 1] && marks[j - 1] in marks;
    forall i | 0 <= i < |ops| && ops[i] == Release
      ensures OnlyMarks(ops[i + 1..])
    {
      assert ops[1..] == marks;
    }
  }

  lemma ImageStays(op: Op, mem: Memory, shard: Shard)
    requires Refers(mem.active, mem.recs) && Refers(mem.archive, mem.recs)
    requires !Affects(op, mem, shard) && (op.Create? ==> op.obj !in mem.recs)
    ensures var m := Exec(op, mem);
            ShardOf(m, shard) == ShardOf(mem, shard) && Image(ShardOf(m, shard), m.recs) == Image(ShardOf(mem, shard), mem.recs)
  {
    var sh, m := ShardOf(mem, shard), Exec(op, mem);
    assert ShardOf(m, shard) == sh;
    forall i | i in sh
      ensures sh[i] in mem.recs && sh[i] in m.recs && m.recs[sh[i]] == mem.recs[sh[i]]
    {
      assert sh[i] in sh.Values;
    }
  }

  /** A change to memory. */
  lemma ChangeKeeps(s: System, r: System)
    requires Inv(s) && s.holder != [] && !s.holder[0].Release? && !s.holder[0].Mark? && r == Next(s, Advance)
    ensures Inv(r)
  {
    var op := s.holder[0];
    assert s.holder == [op] + s.holder[1..];
    forall shard
      ensures CatchesUp(r, shard) && (Coming(s, shard) ==> Coming(r, shard)) && (Affects(op, s.mem, shard) ==> Coming(r, shard))
    {
      assert CatchesUp(s, shard);
      OwedStays(s, r, shard);
      if !Affects(op, s.mem, shard) { ImageStays(op, s.mem, shard); }
    }
    CopyStays(s, r, op);
    MarksLastTail(s.holder);
  }

  lemma CopyStays(s: System, r: System, op: Op)
    requires Inv(s) && s.holder != [] && op == s.holder[0] && !op.Release? && !op.Mark? && r == Next(s, Advance)
    requires forall shard :: (Coming(s, shard) ==> Coming(r, shard)) && (Affects(op, s.mem, shard) ==> Coming(r, shard))
    ensures CopyOk(r)
  {
    if s.writer.Writing? {
      var shard := s.writer.todo[0];
      if !Affects(op, s.mem, shard) { ImageStays(op, s.mem, shard); }
    }
  }

  lemma MarksLastTail(ops: seq<Op>)
    requires ops != [] && MarksLast(ops)
    ensures MarksLast(ops[1..])
  {
    forall i | 0 <= i < |ops[1..]| && ops[1..][i] == Release
      ensures OnlyMarks(ops[1..][i + 1..])
    {
      assert ops[i + 1] == Release && ops[1..][i + 1..] == ops[i + 2..];
    }
  }

  /** A mark goes into the queue, under the lock. */
  lemma MarkKeeps(s: System, r: System)
    requires Inv(s) && s.holder != [] && s.holder[0].Mark? && r == Next(s, Advance)
    ensures Inv(r)
  {
    assert s.holder == [s.holder[0]] + s.holder[1..];
    forall shard
      ensures CatchesUp(r, shard) && (Coming(s, shard) ==> Coming(r, shard))
    {
      assert CatchesUp(s, shard);
      if shard == s.holder[0].target { assert r.queue[|s.queue|] == shard; } else { OwedStays(s, r, shard); }
    }
    MarksLastTail(s.holder);
  }

  lemma ReleaseKeeps(s: System, r: System)
    requires Inv(s) && s.holder != [] && s.holder[0].Release? && r == Next(s, Advance)
    ensures Inv(r)
  {
    assert s.holder == [Release] + s.holder[1..];
    assert OnlyMarks(s.holder[1..]);
    MarksDoNothing(s.holder, s.mem);
    assert r.tails[|s.tails|] == s.holder[1..];
    forall shard
      ensures CatchesUp(r, shard) && (Coming(s, shard) ==> Coming(r, shard))
    {
      assert CatchesUp(s, shard);
      if i :| 0 <= i < |s.tails| && Mark(shard) in s.tails[i] { assert r.tails[i] == s.tails[i]; }
    }
  }

  /** A mark goes into the queue, after the lock was released. */
  lemma TailKeeps(s: System, i: nat)
    requires Inv(s) && i < |s.tails| && s.tails[i] != []
    ensures Inv(Next(s, AdvanceTail(i)))
  {
    var r := Next(s, AdvanceTail(i));
    var op := s.tails[i][0];
    assert op in s.tails[i] && op.Mark? && s.tails[i] == [op] + s.tails[i][1..];
    forall shard
      ensures CatchesUp(r, shard) && (Coming(s, shard) ==> Coming(r, shard))
    {
      assert CatchesUp(s, shard);
      if shard == op.target { assert r.queue[|s.queue|] == shard; }
      if j :| 0 <= j < |s.tails| && Mark(shard) in s.tails[j] {
        if j != i { assert r.tails[j] == s.tails[j]; } else { assert r.tails[i] == s.tails[i][1..]; }
      }
    }
  }

  lemma TakeKeeps(s: System)
    requires Inv(s) && Enabled(s, Take)
    ensures Inv(Next(s, Take))
  {
    var r := Next(s, Take);
    assert s.queue == [s.queue[0]] + s.queue[1..];
    forall shard
      ensures CatchesUp(r, shard)
    {
      assert CatchesUp(s, shard);
      OwedStays(s, r, shard);
    }
  }

  lemma DecideKeeps(s: System)
    requires Inv(s) && Enabled(s, Decide)
    ensures Inv(Next(s, Decide))
  {
    var r := Next(s, Decide);
    forall shard
      ensures CatchesUp(r, shard)
    {
      assert CatchesUp(s, shard);
      OwedStays(s, r, shard);
    }
  }

  lemma CopyKeeps(s: System)
    requires Inv(s) && Enabled(s, Copy)
    ensures Inv(Next(s, Copy))
  {
    var r := Next(s, Copy);
    forall shard
      ensures CatchesUp(r, shard)
    {
      assert CatchesUp(s, shard);
      OwedStays(s, r, shard);
    }
  }

  lemma FinishKeeps(s: System, content: Option<map<Id, Rec>>)
    requires Inv(s) && Enabled(s, Finish(content))
    ensures Inv(Next(s, Finish(content)))
  {
    var r := Next(s, Finish(content));
    forall shard
      ensures CatchesUp(r, shard)
    {
      assert CatchesUp(s, shard);
      OwedStays(s, r, shard);
    }
  }

  /** Whatever the callers and the writer do next. */
  lemma StepKeeps(s: System, step: Step)
    requires Inv(s) && Enabled(s, step)
    ensures Inv(Next(s, step))
  {
    match step {
      case Begin(call) => BeginKeeps(s, call);
      case Advance =>
        if s.holder[0].Release? {
          ReleaseKeeps(s, Next(s, step));
        } else if s.holder[0].Mark? {
          MarkKeeps(s, Next(s, step));
        } else {
          ChangeKeeps(s, Next(s, step));
        }
      case AdvanceTail(i) => TailKeeps(s, i);
      case Take => TakeKeeps(s);
      case Decide => DecideKeeps(s);
      case Copy => CopyKeeps(s);
      case Finish(content) => FinishKeeps(s, content);
    }
  }

  // ---- whole runs ----

  /** After loading: the files hold what memory holds, and nothing is under way. */
  ghost predicate Loaded(s: System) {
    && Refers(s.mem.active, s.mem.recs) && Refers(s.mem.archive, s.mem.recs) && Tidy(s.mem)
    && s.activeFile == Image(s.mem.active, s.mem.recs) && s.archiveFile == Image(s.mem.archive, s.mem.recs)
    && Idle(s)
  }

  /** No call is under way, no mark is queued, and the writer has nothing to write. */
  ghost predicate Idle(s: System) {
    s.holder == [] && (forall i :: 0 <= i < |s.tails| ==> s.tails[i] == []) && s.queue == [] && s.writer == Collecting([])
  }

  ghost predicate IsRun(ss: seq<System>, steps: seq<Step>) {
    && |ss| == |steps| + 1 && Loaded(ss[0])
    && forall i {:trigger steps[i]} :: 0 <= i < |steps| ==> Enabled(ss[i], steps[i]) && ss[i + 1] == Next(ss[i], steps[i])
  }

  lemma LoadedIsGood(s: System)
    requires Loaded(s)
    ensures Inv(s)
  {
  }

  lemma {:induction false} RunKeeps(ss: seq<System>, steps: seq<Step>, n: nat)
    requires IsRun(ss, steps) && n < |ss|
    ensures Inv(ss[n])
  {
    hide Inv, Loaded, Enabled, Next;
    if n == 0 {
      LoadedIsGood(ss[0]);
    } else {
      RunKeeps(ss, steps, n - 1);
      StepKeeps(ss[n - 1], steps[n - 1]);
    }
  }

  /** At every moment of every run, if the file of a shard differs from the shard, then a
      mark for it is in the queue, or held by the writer, or about to be left by a caller. */
  lemma FilesCatchUp(ss: seq<System>, steps: seq<Step>, n: nat, shard: Shard)
    requires IsRun(ss, steps) && n < |ss|
    ensures FileOf(ss[n], shard) == Image(ShardOf(ss[n].mem, shard), ss[n].mem.recs)
            || shard in ss[n].queue || Owed(ss[n], shard) || HeldMark(ss[n].writer, shard)
  {
    hide IsRun;
    RunKeeps(ss, steps, n);
    assert CatchesUp(ss[n], shard);
  }

  /** The file holds an entry for exactly each id of the shard, with its record. */
  ghost predicate Saves(file: map<Id, Rec>, shard: map<Id, Obj>, recs: map<Obj, Rec>) {
    (forall i :: i in file <==> i in shard) && forall i :: i in file ==> shard[i] in recs && file[i] == recs[shard[i]]
  }

  lemma ImageSaves(shard: map<Id, Obj>, recs: map<Obj, Rec>)
    requires Refers(shard, recs)
    ensures Saves(Image(shard, recs), shard, recs)
  {
  }

  /** So when everything has come to rest, the files hold what memory holds. */
  lemma IdleMeansSaved(ss: seq<System>, steps: seq<Step>, n: nat)
    requires IsRun(ss, steps) && n < |ss| && Idle(ss[n])
    ensures Saves(ss[n].activeFile, ss[n].mem.active, ss[n].mem.recs) && Saves(ss[n].archiveFile, ss[n].mem.archive, ss[n].mem.recs)
    ensures ss[n].activeFile == Image(ss[n].mem.active, ss[n].mem.recs) && ss[n].archiveFile == Image(ss[n].mem.archive, ss[n].mem.recs)
  {
    hide IsRun;
    FilesCatchUp(ss, steps, n, Active);
    FilesCatchUp(ss, steps, n, Archive);
    RunKeeps(ss, steps, n);
    ImageSaves(ss[n].mem.active, ss[n].mem.recs);
    ImageSaves(ss[n].mem.archive, ss[n].mem.recs);
  }

  // ---- calls in a run ----

  ghost predicate Known(mem: Memory, i: Id) {
    i in mem.active || i in mem.archive
  }

  lemma EffectKnown(call: Call, a: Memory, b: Memory, i: Id)
    requires Effect(call, a, b) && Known(a, i)
    ensures Known(b, i)
  {
  }

  /** The memory as the caller with the lock will leave it changes only when a call begins. */
  lemma MemoryAhead(s: System, step: Step)
    requires Inv(s) && Enabled(s, step)
    ensures var r := Next(s, step);
            if step.Begin? then Effect(step.call, ExecAll(s.holder, s.mem), ExecAll(r.holder, r.mem))
            else ExecAll(r.holder, r.mem) == ExecAll(s.holder, s.mem)
  {
    hide Effect;
    if step.Begin? { ProgramDoes(step.call, s.mem); }
    if step.Advance? && s.holder[0].Release? {
      assert OnlyMarks(s.holder[1..]);
      assert s.holder == [Release] + s.holder[1..];
      MarksDoNothing(s.holder, s.mem);
    }
  }

  /** Once the lock is free again a call has had its effect, whoever ran in between, up to
      the next call. */
  lemma {:induction false} CallTakesEffect(ss: seq<System>, steps: seq<Step>, n: nat, m: nat)
    requires IsRun(ss, steps) && n < m < |ss| && steps[n].Begin? && forall k :: n < k < m ==> !steps[k].Begin?
    ensures Effect(steps[n].call, ss[n].mem, ExecAll(ss[m].holder, ss[m].mem))
    ensures ss[m].holder == [] ==> Effect(steps[n].call, ss[n].mem, ss[m].mem)
    decreases m - n
  {
    hide Inv, Loaded, Next, Effect;
    RunKeeps(ss, steps, m - 1);
    MemoryAhead(ss[m - 1], steps[m - 1]);
    if n < m - 1 { CallTakesEffect(ss, steps, n, m - 1); }
  }

  /** Whenever the lock is free, an id that was once in a shard is still in one. */
  lemma {:induction false} IdsStay(ss: seq<System>, steps: seq<Step>, n: nat, m: nat, i: Id)
    requires IsRun(ss, steps) && n <= m < |ss| && ss[n].holder == [] && Known(ss[n].mem, i)
    ensures Known(ExecAll(ss[m].holder, ss[m].mem), i)
    ensures ss[m].holder == [] ==> i in ss[m].mem.active || i in ss[m].mem.archive
    decreases m - n
  {
    hide Inv, Loaded, Next, Effect, Enabled;
    if n < m {
      IdsStay(ss, steps, n, m - 1, i);
      RunKeeps(ss, steps, m - 1);
      MemoryAhead(ss[m - 1], steps[m - 1]);
      if steps[m - 1].Begin? {
        EffectKnown(steps[m - 1].call, ExecAll(ss[m - 1].holder, ss[m - 1].mem), ExecAll(ss[m].holder, ss[m].mem), i);
      }
    }
  }

  // ---- the writer gets there ----

  /** No call is under way. */
  ghost predicate Quiet(s: System) {
    s.holder == [] && forall i :: 0 <= i < |s.tails| ==> s.tails[i] == []
  }

  /** A step of the writer; to find that it has collected nothing is none. */
  ghost predicate WriterStep(s: System, step: Step) {
    Enabled(s, step) && (step.Take? || step.Copy? || step.Finish? || (step.Decide? && s.writer.items != []))
  }

  /** How many steps the writer may still need. */
  function Work(s: System): nat {
    7 * |s.queue| + match s.writer
                    case Collecting(items) => if items == [] then 0 else 6
                    case Flushing(todo) => 2 * |todo| + 1
                    case Writing(todo, _, _) => 2 * |todo|
  }

  lemma WriterWorks(s: System, step: Step)
    requires Quiet(s) && WriterStep(s, step)
    ensures Quiet(Next(s, step)) && Work(Next(s, step)) < Work(s)
  {
  }

  /** The writer is never stuck. */
  lemma WriterCanStep(s: System)
    requires Inv(s) && Quiet(s)
    ensures Idle(s) <==> !exists step :: WriterStep(s, step)
  {
    hide CopyOk, CatchesUp, Sound, Covered, MarksLast, OnlyMarks, Apart, Image;
    if !Idle(s) {
      match s.writer {
        case Collecting(items) => assert WriterStep(s, if items == [] then Take else Decide);
        case Flushing(_) => assert WriterStep(s, Copy);
        case Writing(_, snap, _) => assert WriterStep(s, Finish(Some(Image(snap, s.mem.recs))));
      }
    }
  }

  /** Once no call is under way the writer, in whatever order it takes its steps, comes to
      rest after a bounded number of them, and not before the files hold what memory
      holds. */
  lemma {:induction false} WriterCatchesUp(ss: seq<System>, steps: seq<Step>, n: nat, m: nat)
    requires IsRun(ss, steps) && n <= m < |ss| && Quiet(ss[n]) && forall k :: n <= k < m ==> WriterStep(ss[k], steps[k])
    ensures Quiet(ss[m]) && m - n + Work(ss[m]) <= Work(ss[n])
    ensures if exists step :: WriterStep(ss[m], step) then !Idle(ss[m])
            else Idle(ss[m]) && forall shard :: FileOf(ss[m], shard) == Image(ShardOf(ss[m].mem, shard), ss[m].mem.recs)
    decreases m - n
  {
    hide Inv, Loaded, Enabled, Next, WriterStep, Quiet, Work;
    if n < m {
      WriterCatchesUp(ss, steps, n, m - 1);
      WriterWorks(ss[m - 1], steps[m - 1]);
    }
    RunKeeps(ss, steps, m);
    WriterCanStep(ss[m]);
    if Idle(ss[m]) {
      IdleMeansSaved(ss, steps, m);
      EitherShard(ss[m]);
    }
  }

  lemma EitherShard(s: System)
    requires s.activeFile == Image(s.mem.active, s.mem.recs) && s.archiveFile == Image(s.mem.archive, s.mem.recs)
    ensures forall shard :: FileOf(s, shard) == Image(ShardOf(s.mem, shard), s.mem.recs)
  {
  }

  ghost predicate FreshIds(ss: seq<System>, steps: seq<Step>)
    requires |ss| == |steps| + 1
  {
    forall i {:trigger steps[i]} :: 0 <= i < |steps| && steps[i].Begin? ==> FreshId(steps[i].call, ss[i].mem)
  }

  ghost predicate PlainStatuses(ss: seq<System>, steps: seq<Step>)
    requires |ss| == |steps| + 1
  {
    forall i {:trigger steps[i]} :: 0 <= i < |steps| && steps[i].Begin? ==> PlainStatus(steps[i].call, ss[i].mem)
  }

  lemma {:induction false} TidyAfter(ss: seq<System>, steps: seq<Step>, n: nat)
    requires IsRun(ss, steps) && n < |ss|
    ensures FreshIds(ss, steps) ==> Disjoint(ExecAll(ss[n].holder, ss[n].mem))
    ensures PlainStatuses(ss, steps) ==> NoTerminal(ExecAll(ss[n].holder, ss[n].mem))
  {
    hide Disjoint, NoTerminal, Inv, Enabled, Next, FreshId, PlainStatus;
    if n == 0 {
      LoadedIsTidy(ss[0]);
    } else {
      TidyAfter(ss, steps, n - 1);
      RunKeeps(ss, steps, n - 1);
      TidyStep(ss[n - 1], steps[n - 1]);
    }
  }

  lemma LoadedIsTidy(s: System)
    requires Loaded(s)
    ensures Disjoint(ExecAll(s.holder, s.mem)) && NoTerminal(ExecAll(s.holder, s.mem))
  {
  }

  lemma TidyStep(s: System, step: Step)
    requires Inv(s) && Enabled(s, step)
    ensures var m, r := ExecAll(s.holder, s.mem), Next(s, step);
            && (Disjoint(m) && (step.Begin? ==> FreshId(step.call, s.mem)) ==> Disjoint(ExecAll(r.holder, r.mem)))
            && (NoTerminal(m) && (step.Begin? ==> PlainStatus(step.call, s.mem)) ==> NoTerminal(ExecAll(r.holder, r.mem)))
  {
    if step.Begin? { ProgramKeeps(step.call, s.mem); }
    if step.Advance? && s.holder[0].Release? {
      assert OnlyMarks(s.holder[1..]);
      assert s.holder == [Release] + s.holder[1..];
      MarksDoNothing(s.holder, s.mem);
    }
  }

  /** Whenever the lock is free, the shards share no id if no call has put an id that was
      in the archive, and the active shard holds nothing in a terminal status if no call
      has brought one in beside the parameter that the store looks at. */
  lemma ShardsStayTidy(ss: seq<System>, steps: seq<Step>, n: nat)
    requires IsRun(ss, steps) && n < |ss| && ss[n].holder == []
    ensures FreshIds(ss, steps) ==> Disjoint(ss[n].mem)
    ensures PlainStatuses(ss, steps) ==> NoTerminal(ss[n].mem)
  {
    TidyAfter(ss, steps, n);
  }

  // ---- the methods of the class ----

  /** The marks that steps leave, in order. */
  function Marks(ops: seq<Op>): seq<Shard> {
    if ops == [] then [] else (if ops[0].Mark? then [ops[0].target] else []) + Marks(ops[1..])
  }

  /** A call that nobody interrupts, from memory `a` and queue `q`. */
  ghost predicate Performed(call: Call, a: Memory, q: seq<Shard>, b: Memory, r: seq<Shard>) {
    b == ExecAll(Program(call, a), a) && r == q + Marks(Program(call, a))
  }

  class Store {
    var active: map<Id, Obj>
    var archive: map<Id, Obj>
    var recs: map<Obj, Rec>
    var queue: seq<Shard>
    var activeFile: map<Id, Rec>
    var archiveFile: map<Id, Rec>

    ghost function Mem(): Memory
      reads this
    {
      Memory(active, archive, recs)
    }

    /** `put`; obj is the new dict. */
    method Put(i: Id, r: Rec, obj: Obj)
      requires obj !in recs
      modifies this`active, this`recs, this`queue
      ensures Performed(Call.Put(i, r, obj), old(Mem()), old(queue), Mem(), queue)
      ensures Effect(Call.Put(i, r, obj), old(Mem()), Mem()) && queue == old(queue) + [Active]
    {
      ProgramDoes(Call.Put(i, r, obj), Mem());
      PutDoes(i, r, obj, Mem());
      recs := recs[obj := r];
      active := active[i := obj];
      queue := queue + [Active];
      PutMarks(i, r, obj);
    }

    /** `update_status` */
    method UpdateStatus(i: Id, st: Status, extra: seq<Entry>) returns (found: bool)
      requires Refers(active, recs) && Refers(archive, recs)
      modifies this`active, this`archive, this`recs, this`queue
      ensures Performed(Call.UpdateStatus(i, st, extra), old(Mem()), old(queue), Mem(), queue)
      ensures Effect(Call.UpdateStatus(i, st, extra), old(Mem()), Mem())
      ensures queue == old(queue) + (if !found then [] else if i !in old(active) then [Archive] else if Terminal(st) then [Active, Archive] else [Active])
      ensures found == (i in old(active) || i in old(archive))
    {
      hide Effect, ExecAll, SetFields, Exec, Marks;
      ghost var was := Mem();
      ProgramDoes(Call.UpdateStatus(i, st, extra), was);
      if i !in active {
        if i !in archive {
          MarksDoNothing([Release], was);
          NoMarks([Release]);
          return false;
        }
        SetStatusAndFields(archive[i], st, extra);
        UpdateProgram(was, archive[i], st, extra, [Mark(Archive), Release]);
        TailMarks(i, archive[i], Mem());
        queue := queue + [Archive];
        return true;
      }
      var rec := active[i];
      SetStatusAndFields(rec, st, extra);
      TailMarks(i, rec, Mem());
      if Terminal(st) {
        UpdateProgram(was, rec, st, extra, [Add(Archive, i, rec), Del(Active, i), Mark(Active), Mark(Archive), Release]);
        archive := archive[i := rec];
        active := active - {i};
        queue := queue + [Active];
        queue := queue + [Archive];
      } else {
        UpdateProgram(was, rec, st, extra, [Mark(Active), Release]);
        queue := queue + [Active];
      }
      found := true;
    }

    /** The assignments to a record in `update_status`. */
    method SetStatusAndFields(o: Obj, st: Status, extra: seq<Entry>)
      requires o in recs
      modifies this`recs
      ensures Mem() == ExecAll(SetFields(o, extra), Exec(SetStatus(o, st), old(Mem())))
    {
      recs := recs[o := recs[o].(status := st)];
      ghost var goal := ExecAll(SetFields(o, extra), Mem());
      var k := 0;
      assert extra[0..] == extra;
      while k < |extra|
        invariant 0 <= k <= |extra| && o in recs && ExecAll(SetFields(o, extra[k..]), Mem()) == goal
      {
        assert extra[k..][1..] == extra[k + 1..];
        assert SetFields(o, extra[k..])[1..] == SetFields(o, extra[k + 1..]);
        recs := recs[o := Assign(recs[o], extra[k])];
        k := k + 1;
      }
    }

    /** The first loop of `sweep_expired`. */
    method FindExpired(now: int) returns (toMove: seq<Id>)
      requires Refers(active, recs)
      ensures AllExpired(Mem(), toMove, now)
    {
      var keys := active.Keys;
      toMove := [];
      while keys != {}
        invariant keys <= active.Keys && forall a, b :: 0 <= a < b < |toMove| ==> toMove[a] != toMove[b]
        invariant forall i :: i in toMove <==> i in active.Keys - keys && recs[active[i]].status == Pending && recs[active[i]].expiresAt <= now
        decreases |keys|
      {
        var i: Id :| i in keys;
        keys := keys - {i};
        if recs[active[i]].status == Pending && recs[active[i]].expiresAt <= now {
          toMove := toMove + [i];
        }
      }
    }

    /** `sweep_expired` */
    method SweepExpired(now: int) returns (n: nat, ghost order: seq<Id>)
      requires Refers(active, recs)
      modifies this`active, this`archive, this`recs, this`queue
      ensures AllExpired(old(Mem()), order, now) && n == |order|
      ensures Swept(old(Mem()), Mem(), now, order) && queue == old(queue) + if n > 0 then [Active, Archive] else []
      ensures Performed(Call.SweepExpired(now, order), old(Mem()), old(queue), Mem(), queue)
    {
      hide Swept, Exec, ExecAll, SweepOps, Program, Marks;
      ghost var was := Mem();
      var toMove := FindExpired(now);
      order := toMove;
      ProgramDoes(Call.SweepExpired(now, order), was);
      var k := 0;
      assert toMove[0..] == toMove;
      assert forall j :: 0 <= j < |toMove| ==> toMove[j] in toMove;
      while k < |toMove|
        invariant 0 <= k <= |toMove| && ExecAll(SweepOps(was, toMove[k..], now), Mem()) == ExecAll(SweepOps(was, toMove, now), was)
        invariant forall j :: k <= j < |toMove| ==> toMove[j] in active && toMove[j] in was.active && active[toMove[j]] == was.active[toMove[j]]
        invariant recs.Keys == was.recs.Keys && queue == old(queue)
      {
        var i := toMove[k];
        SweepTurn(was, toMove, k, now, Mem());
        Expire(i, now);
        k := k + 1;
      }
      SweepEnds(was, toMove, now, Mem());
      if toMove != [] {
        queue := queue + [Active];
        queue := queue + [Archive];
      }
      assert queue == old(queue) + if toMove != [] then [Active, Archive] else [];
      n := |toMove|;
    }

    /** The body of the second loop of `sweep_expired`. */
    method Expire(i: Id, now: int)
      requires i in active && active[i] in recs
      modifies this`active, this`archive, this`recs
      ensures var o, m := old(active[i]), old(Mem());
              && Mem() == Exec(Del(Active, i), Exec(Add(Archive, i, o), Exec(SetField(o, ToField(EXPIRED_AT, now)), Exec(SetStatus(o, Expired), m))))
              && active == old(active) - {i} && recs.Keys == old(recs).Keys
    {
      var rec := active[i];
      recs := recs[rec := recs[rec].(status := Expired)];
      recs := recs[rec := Assign(recs[rec], ToField(EXPIRED_AT, now))];
      archive := archive[i := rec];
      active := active - {i};
    }

    /** One turn of `_writer_loop` with up to `window` marks, that nobody interrupts. */
    method WriterTurn(window: nat)
      modifies this`queue, this`activeFile, this`archiveFile
      ensures var k := if window <= |old(queue)| then window else |old(queue)|;
              && queue == old(queue)[k..]
              && activeFile == (if Active in old(queue)[..k] then Image(active, recs) else old(activeFile))
              && archiveFile == (if Archive in old(queue)[..k] then Image(archive, recs) else old(archiveFile))
      ensures var k := if window <= |old(queue)| then window else |old(queue)|;
              && (Refers(active, recs) && Active in old(queue)[..k] ==> Saves(activeFile, active, recs))
              && (Refers(archive, recs) && Archive in old(queue)[..k] ==> Saves(archiveFile, archive, recs))
    {
      hide Saves;
      var items: seq<Shard> := [];
      while |items| < window && queue != []
        invariant |items| <= window && |items| <= |old(queue)| && items == old(queue)[..|items|] && queue == old(queue)[|items|..]
        invariant activeFile == old(activeFile) && archiveFile == old(archiveFile)
        decreases |queue|
      {
        items := items + [queue[0]];
        queue := queue[1..];
      }
      var activeDirty, archiveDirty := false, false;
      for i := 0 to |items|
        invariant activeDirty == (Active in items[..i]) && archiveDirty == (Archive in items[..i])
      {
        assert items[..i + 1] == items[..i] + [items[i]];
        if items[i] == Active {
          activeDirty := true;
        } else {
          archiveDirty := true;
        }
      }
      assert items[..|items|] == items;
      assert |items| == if window <= |old(queue)| then window else |old(queue)|;
      if activeDirty {
        activeFile := Image(active, recs);
        if Refers(active, recs) { ImageSaves(active, recs); }
      }
      if archiveDirty {
        archiveFile := Image(archive, recs);
        if Refers(archive, recs) { ImageSaves(archive, recs); }
      }
    }
  }

  lemma TailOfConcat(a: seq<Op>, b: seq<Op>)
    requires a != []
    ensures (a + b)[0] == a[0] && (a + b)[1..] == a[1..] + b
  {
  }

  lemma Regroup(a: seq<Shard>, b: seq<Shard>, c: seq<Shard>)
    ensures a + (b + c) == (a + b) + c
  {
  }

  lemma {:induction false} MarksConcat(a: seq<Op>, b: seq<Op>)
    ensures Marks(a + b) == Marks(a) + Marks(b)
  {
    if a == [] {
      assert a + b == b;
    } else {
      var head := if a[0].Mark? then [a[0].target] else [];
      MarksConcat(a[1..], b);
      TailOfConcat(a, b);
      Regroup(head, Marks(a[1..]), Marks(b));
    }
  }

  lemma {:induction false} NoMarks(ops: seq<Op>)
    requires forall op :: op in ops ==> !op.Mark?
    ensures Marks(ops) == []
    decreases |ops|
  {
    if ops != [] {
      assert ops[0] in ops;
      NoMarks(ops[1..]);
    }
  }

  lemma PutMarks(i: Id, r: Rec, o: Obj)
    ensures Marks([Create(o, r), Add(Active, i, o), Release, Mark(Active)]) == [Active]
  {
    NoMarks([Create(o, r), Add(Active, i, o), Release]);
    MarksConcat([Create(o, r), Add(Active, i, o), Release], [Mark(Active)]);
    assert [Create(o, r), Add(Active, i, o), Release] + [Mark(Active)] == [Create(o, r), Add(Active, i, o), Release, Mark(Active)];
    assert [Mark(Active)][1..] == [] && Marks([Mark(Active)]) == [Active];
  }

  lemma {:induction false} FieldsHaveNoMarks(o: Obj, extra: seq<Entry>)
    ensures forall op :: op in SetFields(o, extra) ==> !op.Mark?
  {
    if extra != [] { FieldsHaveNoMarks(o, extra[1..]); }
  }

  lemma {:induction false} SweepHasNoMarks(mem: Memory, order: seq<Id>, now: int)
    ensures forall op :: op in SweepOps(mem, order, now) ==> !op.Mark?
    decreases |order|
  {
    if order != [] { SweepHasNoMarks(mem, order[1..], now); }
  }

  lemma UpdateProgram(mem: Memory, o: Obj, st: Status, extra: seq<Entry>, tail: seq<Op>)
    ensures var ops := [SetStatus(o, st)] + SetFields(o, extra) + tail;
            && ExecAll(ops, mem) == ExecAll(tail, ExecAll(SetFields(o, extra), Exec(SetStatus(o, st), mem)))
            && Marks(ops) == Marks(tail)
  {
    var head := [SetStatus(o, st)] + SetFields(o, extra);
    ExecConcat(head, tail, mem);
    ExecConcat([SetStatus(o, st)], SetFields(o, extra), mem);
    assert [SetStatus(o, st)][1..] == [];
    assert ExecAll([SetStatus(o, st)], mem) == Exec(SetStatus(o, st), mem);
    FieldsHaveNoMarks(o, extra);
    NoMarks(head);
    MarksConcat(head, tail);
  }

  lemma TailMarks(i: Id, o: Obj, mem: Memory)
    ensures Marks([Mark(Active), Release]) == [Active] && Marks([Mark(Archive), Release]) == [Archive]
    ensures Marks([Add(Archive, i, o), Del(Active, i), Mark(Active), Mark(Archive), Release]) == [Active, Archive]
    ensures ExecAll([Mark(Active), Release], mem) == mem && ExecAll([Mark(Archive), Release], mem) == mem
    ensures ExecAll([Add(Archive, i, o), Del(Active, i), Mark(Active), Mark(Archive), Release], mem)
         == mem.(active := mem.active - {i}, archive := mem.archive[i := o])
  {
    MoveDoes(i, o, mem);
    MarksDoNothing([Mark(Active), Release], mem);
    MarksDoNothing([Mark(Archive), Release], mem);
    assert [Release][1..] == [] && Marks([Release]) == [];
    assert [Mark(Active), Release][1..] == [Release] && [Mark(Archive), Release][1..] == [Release];
    assert [Mark(Active), Mark(Archive), Release][1..] == [Mark(Archive), Release];
    NoMarks([Add(Archive, i, o), Del(Active, i)]);
    MarksConcat([Add(Archive, i, o), Del(Active, i)], [Mark(Active), Mark(Archive), Release]);
    assert [Add(Archive, i, o), Del(Active, i), Mark(Active), Mark(Archive), Release]
        == [Add(Archive, i, o), Del(Active, i)] + [Mark(Active), Mark(Archive), Release];
  }

  lemma SweepTurn(was: Memory, order: seq<Id>, k: nat, now: int, m: Memory)
    requires k < |order| && order[k] in was.active
    ensures var i, o := order[k], was.active[order[k]];
            ExecAll(SweepOps(was, order[k..], now), m) ==
            ExecAll(SweepOps(was, order[k + 1..], now),
                    Exec(Del(Active, i), Exec(Add(Archive, i, o), Exec(SetField(o, ToField(EXPIRED_AT, now)), Exec(SetStatus(o, Expired), m)))))
  {
    var i, o := order[k], was.active[order[k]];
    var a, b, c, d := SetStatus(o, Expired), SetField(o, ToField(EXPIRED_AT, now)), Add(Archive, i, o), Del(Active, i);
    assert order[k..][1..] == order[k + 1..];
    ExecConcat([a, b, c, d], SweepOps(was, order[k + 1..], now), m);
    assert [a, b, c, d][1..] == [b, c, d] && [b, c, d][1..] == [c, d] && [c, d][1..] == [d] && [d][1..] == [];
    var n := Exec(b, Exec(a, m));
    assert ExecAll([c, d], n) == ExecAll([d], Exec(c, n)) == Exec(d, Exec(c, n));
    assert ExecAll([a, b, c, d], m) == ExecAll([b, c, d], Exec(a, m)) == ExecAll([c, d], n);
  }

  lemma SweepEnds(was: Memory, order: seq<Id>, now: int, m: Memory)
    requires ExecAll(SweepOps(was, order[|order|..], now), m) == ExecAll(SweepOps(was, order, now), was)
    ensures m == ExecAll(Program(SweepExpired(now, order), was), was)
    ensures Marks(Program(SweepExpired(now, order), was)) == if order != [] then [Active, Archive] else []
  {
    hide Exec, ExecAll, SweepOps, Marks;
    var marks := if order != [] then [Mark(Active), Mark(Archive)] else [];
    var sweep := SweepOps(was, order, now);
    SweepOfNone(was, order[|order|..], now, m);
    MarksDoNothing([Release] + marks, ExecAll(sweep, was));
    ExecConcat(sweep, [Release] + marks, was);
    assert sweep + [Release] + marks == sweep + ([Release] + marks);
    SweepHasNoMarks(was, order, now);
    NoMarks(sweep + [Release]);
    MarksConcat(sweep + [Release], marks);
    BothMarks();
  }

  lemma SweepOfNone(was: Memory, order: seq<Id>, now: int, m: Memory)
    requires order == []
    ensures ExecAll(SweepOps(was, order, now), m) == m
  {
  }

  lemma BothMarks()
    ensures Marks([]) == [] && Marks([Mark(Active), Mark(Archive)]) == [Active, Archive]
  {
    assert [Mark(Active), Mark(Archive)][1..] == [Mark(Archive)] && [Mark(Archive)][1..] == [];
    assert Marks([Mark(Archive)]) == [Archive];
  }
}
