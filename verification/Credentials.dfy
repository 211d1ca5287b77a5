/** The credential hooks of the security module over an explicit memory: `blobs` are the
    security labels kmalloc has handed out and kfree has not taken back, and each live
    credential holds the address of one, or NULL. */
module Credentials {
  import opened Options

  const MP4_NO_ACCESS := 0
  const MP4_TARGET_SID := 7
  const EINVAL := 22
  const ENOMEM := 12

  /** A is what addresses a label, C a credential. */
  datatype Memory<!A, !C> = Memory(blobs: map<A, int>, creds: map<C, Option<A>>)

  // ---- The hooks, on values ----

  /** mp4_cred_alloc_blank; `mem` is what kmalloc answers. */
  function AllocBlank<A, C>(h: Memory<A, C>, cred: Option<C>, mem: Option<A>): (Memory<A, C>, int) {
    if cred.None? then (h, -EINVAL)
    else if mem.None? then (h, -ENOMEM)
    else (Memory(h.blobs[mem.value := MP4_NO_ACCESS], h.creds[cred.value := mem]), 0)
  }

  function Security<A, C>(h: Memory<A, C>, cred: Option<C>): Option<A> {
    if cred.None? || cred.value !in h.creds then None else h.creds[cred.value]
  }

  /** No credential points at memory that has been freed. */
  predicate NothingDangles<A, C>(h: Memory<A, C>) {
    forall c :: c in h.creds && h.creds[c].Some? ==> h.creds[c].value in h.blobs
  }

  /** mp4_cred_prepare: with nothing to copy, a blank label, whatever kmalloc answers. */
  function Prepare<A, C>(h: Memory<A, C>, made: C, source: Option<C>, mem: Option<A>): (Memory<A, C>, int)
    requires NothingDangles(h)
  {
    var from := Security(h, source);
    if from.None? then (AllocBlank(h, Some(made), mem).0, 0)
    else if mem.None? then (h, -ENOMEM)
    else (Memory(h.blobs[mem.value := h.blobs[from.value]], h.creds[made := mem]), 0)
  }

  /** mp4_cred_free. */
  function Free<A, C>(h: Memory<A, C>, cred: Option<C>): Memory<A, C> {
    var p := Security(h, cred);
    if p.None? then h else Memory(h.blobs - {p.value}, h.creds[cred.value := None])
  }

  /** mp4_bprm_set_creds; `sid` is the label of the executed file, if there is a file. */
  function SetCreds<A, C>(h: Memory<A, C>, cred: Option<C>, sid: Option<int>): Memory<A, C> {
    var p := Security(h, cred);
    if p.None? || sid != Some(MP4_TARGET_SID) then h
    else h.(blobs := h.blobs[p.value := MP4_TARGET_SID])
  }

  // ---- What the hooks return and leave ----

  /** -EINVAL exactly for NULL, -ENOMEM exactly for want of memory, and then nothing has
      changed; otherwise 0 and a label without access. */
  lemma AllocBlankCodes<A, C>(h: Memory<A, C>, cred: Option<C>, mem: Option<A>)
    ensures var (g, ret) := AllocBlank(h, cred, mem);
            && (ret == 0 <==> cred.Some? && mem.Some?)
            && (ret == -22 <==> cred == None)
            && (ret == -12 <==> cred.Some? && mem == None)
            && (ret != 0 ==> g == h)
            && (ret == 0 ==> Security(g, cred) == mem && g.blobs == h.blobs[mem.value := 0])
  {
  }

  /** -ENOMEM exactly if there is a label to copy and no memory for the copy, and then nothing
      has changed; otherwise 0, and with memory the label is that of the source, or one
      without access if it has none. */
  lemma PrepareCodes<A, C>(h: Memory<A, C>, made: C, source: Option<C>, mem: Option<A>)
    requires NothingDangles(h)
    ensures var (g, ret) := Prepare(h, made, source, mem);
            var from := Security(h, source);
            && (ret == 0 <==> from == None || mem.Some?)
            && (ret == -12 <==> from.Some? && mem == None)
            && (mem == None ==> g == h)
            && (mem.Some? ==>
                  && Security(g, Some(made)) == mem
                  && g.blobs == h.blobs[mem.value := if from.Some? then h.blobs[from.value] else 0])
  {
  }

  /** Freeing takes exactly the label of the credential out of use and makes the credential
      forget it, so that freeing once more does nothing. */
  lemma FreeForgets<A, C>(h: Memory<A, C>, cred: Option<C>)
    requires NothingDangles(h)
    ensures var g, p := Free(h, cred), Security(h, cred);
            && Security(g, cred) == None && Free(g, cred) == g && g.creds.Keys == h.creds.Keys
            && g.blobs.Keys == h.blobs.Keys - (if p.Some? then {p.value} else {})
            && (forall q :: q in g.blobs ==> g.blobs[q] == h.blobs[q])
            && forall c :: c in h.creds && cred != Some(c) ==> g.creds[c] == h.creds[c]
  {
  }

  // ---- The hooks, in place ----

  /** struct mp4_security. */
  class Mp4Security {
    var mp4Flags: int

    constructor (flags: int)
      ensures mp4Flags == flags
    {
      mp4Flags := flags;
    }
  }

  /** The part of struct cred the hooks use. */
  class Cred {
    var security: Mp4Security?

    constructor ()
      ensures security == null
    {
      security := null;
    }
  }

  function Held(o: Mp4Security?): Option<Mp4Security> {
    if o == null then None else Some(o)
  }

  function Given(o: Cred?): Option<Cred> {
    if o == null then None else Some(o)
  }

  /** The labels in use and the live credentials. */
  class Kernel {
    var labels: set<Mp4Security>
    var creds: set<Cred>

    ghost function Abs(): Memory<Mp4Security, Cred>
      reads this, labels, creds
    {
      Memory(map l | l in labels :: l.mp4Flags, map c | c in creds :: Held(c.security))
    }

    /** `memory`: whether kmalloc finds any. */
    method CredAllocBlank(cred: Cred?, memory: bool) returns (ret: int)
      requires cred != null ==> cred in creds
      modifies this`labels, creds
      ensures creds == old(creds) && fresh(labels - old(labels))
      ensures var mem := if cred != null && memory then Held(cred.security) else None;
              (Abs(), ret) == AllocBlank(old(Abs()), Given(cred), mem)
      ensures cred != null && memory ==> cred.security != null && fresh(cred.security)
      ensures ret == (if cred == null then -22 else if memory then 0 else -12)
      ensures if ret == 0 then cred.security.mp4Flags == 0 else Abs() == old(Abs())
    {
      if cred == null {
        return -EINVAL;
      }
      if !memory {
        return -ENOMEM;
      }
      var sec := new Mp4Security(MP4_NO_ACCESS);
      labels := labels + {sec};
      cred.security := sec;
      assert Abs().blobs == old(Abs()).blobs[sec := MP4_NO_ACCESS];
      assert Abs().creds == old(Abs()).creds[cred := Some(sec)];
      ret := 0;
    }

    method CredPrepare(made: Cred, source: Cred?, memory: bool) returns (ret: int)
      requires made in creds && (source != null ==> source in creds && source != made) && NothingDangles(Abs())
      modifies this`labels, creds
      ensures creds == old(creds) && fresh(labels - old(labels))
      ensures var mem := if memory then Held(made.security) else None;
              (Abs(), ret) == Prepare(old(Abs()), made, Given(source), mem)
      ensures memory ==> made.security != null && fresh(made.security)
      ensures var labelled := source != null && old(source.security) != null;
              && ret == (if !labelled || memory then 0 else -12)
              && (memory ==> made.security.mp4Flags == if labelled then old(source.security.mp4Flags) else 0)
              && (!memory ==> Abs() == old(Abs()))
    {
      if source == null || source.security == null {
        var _ := CredAllocBlank(made, memory);
        return 0;
      }
      if !memory {
        return -ENOMEM;
      }
      var sec := new Mp4Security(source.security.mp4Flags);
      labels := labels + {sec};
      made.security := sec;
      assert Abs().blobs == old(Abs()).blobs[sec := old(source.security.mp4Flags)];
      assert Abs().creds == old(Abs()).creds[made := Some(sec)];
      ret := 0;
    }

    method CredFree(cred: Cred?)
      requires cred != null ==> cred in creds
      modifies this`labels, creds
      ensures creds == old(creds) && labels <= old(labels)
      ensures Abs() == Free(old(Abs()), Given(cred))
      ensures cred != null ==> cred.security == null
    {
      if cred == null || cred.security == null {
        return;
      }
      labels := labels - {cred.security};
      cred.security := null;
    }

    method BprmSetCreds(cred: Cred?, sid: Option<int>) returns (ret: int)
      requires (cred != null ==> cred in creds) && NothingDangles(Abs())
      modifies labels
      ensures Abs() == SetCreds(old(Abs()), Given(cred), sid) && ret == 0
    {
      ret := 0;
      if cred == null || cred.security == null || sid == None {
        return;
      }
      if sid.value == MP4_TARGET_SID {
        assert cred in Abs().creds;
        cred.security.mp4Flags := MP4_TARGET_SID;
      }
    }
  }

  // ---- Runs ----

  type Address = nat
  type CredId = nat
  type Store = Memory<Address, CredId>

  /** The kernel creates a credential with a NULL label before it calls the first two hooks,
      and discards it after the last. */
  datatype Event =
    | NewBlank(c: CredId, mem: Option<Address>)
    | Copy(c: CredId, source: Option<CredId>, mem: Option<Address>)
    | Exec(c: CredId, sid: Option<int>)
    | Drop(c: CredId)

  /** kmalloc never answers with memory in use; a new credential is not a live one. */
  predicate Possible(h: Store, e: Event) {
    match e
    case NewBlank(c, mem) => c !in h.creds && (mem.Some? ==> mem.value !in h.blobs)
    case Copy(c, source, mem) =>
      c !in h.creds && source != Some(c) && (mem.Some? ==> mem.value !in h.blobs)
    case Exec(c, sid) => c in h.creds
    case Drop(c) => c in h.creds
  }

  function Create(h: Store, c: CredId): Store {
    h.(creds := h.creds[c := None])
  }

  function Dropped(h: Store, c: CredId): Store {
    var g := Free(h, Some(c));
    g.(creds := g.creds - {c})
  }

  function Step(h: Store, e: Event): Store
    requires NothingDangles(h)
  {
    if !Possible(h, e) then h else
      match e
      case NewBlank(c, mem) => AllocBlank(Create(h, c), Some(c), mem).0
      case Copy(c, source, mem) => Prepare(Create(h, c), c, source, mem).0
      case Exec(c, sid) => SetCreds(h, Some(c), sid)
      case Drop(c) => Dropped(h, c)
  }

  predicate Owns(h: Store, c: CredId, p: Address) {
    c in h.creds && h.creds[c] == Some(p)
  }

  /** Labels in use and credentials that hold one are in one-to-one correspondence: none
      dangles, none is shared and none is leaked. */
  ghost predicate OneToOne(h: Store) {
    && NothingDangles(h)
    && (forall c, d, p :: Owns(h, c, p) && Owns(h, d, p) ==> c == d)
    && forall p :: p in h.blobs ==> exists c :: Owns(h, c, p)
  }

  lemma CreateOneToOne(h: Store, c: CredId)
    requires OneToOne(h) && c !in h.creds
    ensures OneToOne(Create(h, c))
  {
    var g := Create(h, c);
    forall p | p in g.blobs ensures exists d :: Owns(g, d, p) {
      var d :| Owns(h, d, p);
      assert Owns(g, d, p);
    }
    forall d, e, p | Owns(g, d, p) && Owns(g, e, p) ensures d == e {
      assert Owns(h, d, p) && Owns(h, e, p);
    }
  }

  lemma GiveOneToOne(h: Store, c: CredId, p: Address, flags: int)
    requires OneToOne(h) && c in h.creds && h.creds[c] == None && p !in h.blobs
    ensures OneToOne(Memory(h.blobs[p := flags], h.creds[c := Some(p)]))
  {
    var g := Memory(h.blobs[p := flags], h.creds[c := Some(p)]);
    forall q | q in g.blobs ensures exists d :: Owns(g, d, q) {
      if q == p {
        assert Owns(g, c, q);
      } else {
        var d :| Owns(h, d, q);
        assert Owns(g, d, q);
      }
    }
    forall d, e, q | Owns(g, d, q) && Owns(g, e, q) ensures d == e {
      assert d == c || Owns(h, d, q);
      assert e == c || Owns(h, e, q);
    }
  }

  lemma SetCredsOneToOne(h: Store, c: CredId, sid: Option<int>)
    requires OneToOne(h)
    ensures OneToOne(SetCreds(h, Some(c), sid))
  {
    var g := SetCreds(h, Some(c), sid);
    forall q | q in g.blobs ensures exists d :: Owns(g, d, q) {
      var d :| Owns(h, d, q);
      assert Owns(g, d, q);
    }
    forall d, e, q | Owns(g, d, q) && Owns(g, e, q) ensures d == e {
      assert Owns(h, d, q) && Owns(h, e, q);
    }
  }

  lemma DropOneToOne(h: Store, c: CredId)
    requires OneToOne(h) && c in h.creds
    ensures OneToOne(Dropped(h, c))
  {
    var g := Dropped(h, c);
    forall q | q in g.blobs ensures exists d :: Owns(g, d, q) {
      var d :| Owns(h, d, q);
      assert d != c;
      assert Owns(g, d, q);
    }
    forall d, e, q | Owns(g, d, q) && Owns(g, e, q) ensures d == e {
      assert Owns(h, d, q) && Owns(h, e, q);
    }
    forall d | d in g.creds && g.creds[d].Some? ensures g.creds[d].value in g.blobs {
      var q := g.creds[d].value;
      assert Owns(h, d, q) && d != c && q in h.blobs;
      assert h.creds[c] == Some(q) ==> Owns(h, c, q);
    }
  }

  lemma StepOneToOne(h: Store, e: Event)
    requires OneToOne(h)
    ensures OneToOne(Step(h, e))
  {
    if Possible(h, e) {
      match e
      case NewBlank(c, mem) =>
        CreateOneToOne(h, c);
        if mem.Some? {
          GiveOneToOne(Create(h, c), c, mem.value, MP4_NO_ACCESS);
        }
      case Copy(c, source, mem) =>
        CreateOneToOne(h, c);
        if mem.Some? {
          GiveOneToOne(Create(h, c), c, mem.value, Step(h, e).blobs[mem.value]);
        }
      case Exec(c, sid) => SetCredsOneToOne(h, c, sid);
      case Drop(c) => DropOneToOne(h, c);
    }
  }

  /** Ownership is one to one after every run of the hooks. */
  ghost function Run(es: seq<Event>): (h: Store)
    ensures OneToOne(h)
  {
    if es == [] then Memory(map[], map[])
    else
      var before := Run(es[..|es| - 1]);
      StepOneToOne(before, es[|es| - 1]);
      Step(before, es[|es| - 1])
  }

  /** The label a credential carries, if it has one. */
  function Label(h: Store, c: CredId): Option<int>
    requires NothingDangles(h)
  {
    var p := Security(h, Some(c));
    if p == None then None else Some(h.blobs[p.value])
  }

  /** Relabelling, copying or freeing one credential changes the label of no other. */
  lemma OthersKeepTheirLabel(h: Store, e: Event, c: CredId)
    requires OneToOne(h) && e.c != c
    ensures OneToOne(Step(h, e)) && Label(Step(h, e), c) == Label(h, c)
    ensures c in Step(h, e).creds <==> c in h.creds
  {
    StepOneToOne(h, e);
    var p := Security(h, Some(e.c));
    if p.Some? && c in h.creds && h.creds[c].Some? {
      assert Owns(h, e.c, p.value) && Owns(h, c, h.creds[c].value);
    }
  }

  /** An exec of a target-labelled file relabelled some credential on the chain of copies
      that ends in c. */
  ghost predicate Marked(es: seq<Event>, c: CredId) {
    if es == [] then false
    else
      var before := es[..|es| - 1];
      var h := Run(before);
      var e := es[|es| - 1];
      if e.c != c || !Possible(h, e) then Marked(before, c)
      else
        match e
        case NewBlank(_, _) => false
        case Copy(_, source, _) => Security(h, source).Some? && Marked(before, source.value)
        case Exec(_, sid) => (Security(h, Some(c)).Some? && sid == Some(MP4_TARGET_SID)) || Marked(before, c)
        case Drop(_) => false
  }

  /** What an event does to the label of the credential it is about. */
  lemma SubjectLabel(h: Store, e: Event)
    requires OneToOne(h) && Possible(h, e)
    ensures OneToOne(Step(h, e))
    ensures var l := Label(Step(h, e), e.c);
            match e
            case NewBlank(c, mem) => l == if mem == None then None else Some(MP4_NO_ACCESS)
            case Copy(c, source, mem) =>
              l == if mem == None then None
                   else if Security(h, source) == None then Some(MP4_NO_ACCESS)
                   else Label(h, source.value)
            case Exec(c, sid) =>
              l == if Label(h, c).Some? && sid == Some(MP4_TARGET_SID) then Some(MP4_TARGET_SID) else Label(h, c)
            case Drop(c) => l == None
  {
    StepOneToOne(h, e);
  }

  /** Inheritance over every run: a live label is the target label exactly when an exec of
      a target-labelled file is on its chain of copies, and the blank one otherwise. */
  lemma {:induction false} TargetIff(es: seq<Event>, c: CredId)
    ensures var l := Label(Run(es), c);
            l == None || l == Some(if Marked(es, c) then 7 else 0)
  {
    if es != [] {
      var before, e := es[..|es| - 1], es[|es| - 1];
      var h := Run(before);
      TargetIff(before, c);
      if e.c != c {
        OthersKeepTheirLabel(h, e, c);
      } else if Possible(h, e) {
        SubjectLabel(h, e);
        if e.Copy? && e.source.Some? {
          TargetIff(before, e.source.value);
        }
      }
    }
  }
}
