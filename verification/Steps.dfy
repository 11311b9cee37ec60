/** What a single successful call may do while the controller works towards some purpose. The
    claims about every point where a process may die are claims about sequences of such steps. */
module Steps {
  import opened Common
  import opened CloudModel

  datatype Purpose =
    | Anything
    | SyncPool(pool: Id, targets: map<Endpoint, string>)
    | SyncPorts(elb: Id, ports: set<int>)
    | TearDown(gone: Id, strict: bool)

  ghost predicate Step(why: Purpose, c: Cloud, c': Cloud) {
    match why
    case Anything => true
    case SyncPool(p, want) => MemberStep(c, c', p, want)
    case SyncPorts(e, want) => PortStep(c, c', e, want)
    case TearDown(e, strict) => TearStep(c, c', e, strict)
  }

  /** Every two neighbours of `points` are one such call apart. */
  ghost predicate Run(why: Purpose, points: seq<Cloud>) {
    forall i, j | 0 <= i && j == i + 1 && j < |points| :: Step(why, points[i], points[j])
  }

  lemma RunExtends(why: Purpose, trail: seq<Cloud>, c: Cloud, c': Cloud)
    requires Run(why, trail + [c]) && Step(why, c, c')
    ensures Run(why, (trail + [c]) + [c'])
  {
    var points := (trail + [c]) + [c'];
    forall i, j | 0 <= i && j == i + 1 && j < |points|
      ensures Step(why, points[i], points[j])
    {
      if j < |points| - 1 {
        assert Step(why, (trail + [c])[i], (trail + [c])[j]);
      }
    }
  }

  /** Towards the targets of a pool: either a member nobody wants goes, or a wanted endpoint
      that is missing comes. */
  ghost predicate MemberStep(c: Cloud, c': Cloud, p: Id, want: map<Endpoint, string>) {
    || (exists m :: m in MembersOf(c, p) && c.members[m].at !in want && c' == DropMember(c, m))
    || (exists at :: at in want && at !in Endpoints(c, p) && c' == AddMember(c, p, at, want[at]))
  }

  /** Towards the ports of an ELB: a wanted port that is missing gets its listener; or something
      is added below a listener of the ELB; or a listener for an unwanted port goes. */
  ghost predicate PortStep(c: Cloud, c': Cloud, e: Id, want: set<int>) {
    || (exists port :: port in want && port !in Ports(c, e) && e in c.elbs && c' == AddListener(c, e, port))
    || (exists l, name :: ListenerOn(c, l, e) && c' == AddPool(c, l, name))
    || (exists p :: PoolOn(c, p, e) && c' == AddMonitor(c, p))
    || (exists p, at, subnet :: PoolOn(c, p, e) && at !in Endpoints(c, p) && c' == AddMember(c, p, at, subnet))
    || (exists l :: ListenerOn(c, l, e) && c.listeners[l].port !in want && c' == DropListener(c, l))
  }

  /** Towards the removal of an ELB: one resource goes that has no children. If not `strict`, a
      pool may go with members in it. */
  ghost predicate TearStep(c: Cloud, c': Cloud, e: Id, strict: bool) {
    || (exists m :: MonitorOn(c, m, e) && c' == DropMonitor(c, m))
    || (exists m :: MemberOn(c, m, e) && c' == DropMember(c, m))
    || (exists p :: PoolOn(c, p, e) && (strict ==> Childless(c, p)) && c' == DropPool(c, p))
    || (exists l :: ListenerOn(c, l, e) && PoolsAt(c, l) == {} && c' == DropListener(c, l))
    || (e in c.elbs && ListenersOf(c, e) == {} && c' == DropElb(c, e))
  }

  predicate Childless(c: Cloud, p: Id) {
    MonitorsOf(c, p) == {} && MembersOf(c, p) == {}
  }
}
