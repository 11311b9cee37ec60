/** The admission webhook (internal/webhook/service_mutator.go), together with the API server rule
    it has to live with: a load balancer class may not change while the type stays LoadBalancer. */
module Webhook {
  import opened Common

  const CLASS := "huawei-elb.io/direct-api"
  const AUTOCREATE := "kubernetes.io/elb.autocreate"
  const ELB_ID := "kubernetes.io/elb.id"

  /** The part of a Service the webhook reads and writes; `rest` stands for everything else. */
  datatype Service = Service(isLB: bool, class_: Option<string>, annotations: map<string, string>, rest: int)

  datatype Operation = Create | Update(old_: Service) | OtherOperation

  predicate HasCCMAnnotations(s: Service) {
    AUTOCREATE in s.annotations || ELB_ID in s.annotations
  }

  predicate HasClass(s: Service) {
    s.class_.Some? && s.class_.value != ""
  }

  predicate IsOurs(s: Service) {
    s.class_ == Some(CLASS)
  }

  class Request {
    const operation: Operation
    var svc: Service

    constructor (operation: Operation, svc: Service)
      ensures this.operation == operation && this.svc == svc
    {
      this.operation := operation;
      this.svc := svc;
    }

    /** Sets our class on new Services that have none and that nobody else manages, and restores it
        on updates that lost it. Nothing else changes. */
    method Handle() returns (patched: bool)
      modifies this
      ensures svc == Admitted(operation, old(svc))
      ensures patched ==> IsOurs(svc) && !HasClass(old(svc))
      ensures !patched ==> svc == old(svc)
    {
      if !svc.isLB {
        return false;
      }
      match operation {
      case Create =>
        if HasClass(svc) {
          return false;
        }
        if HasCCMAnnotations(svc) {
          return false;
        }
        svc := svc.(class_ := Some(CLASS));
      case Update(old_) =>
        if HasClass(svc) {
          return false;
        }
        if old_.class_ != Some(CLASS) {
          return false;
        }
        svc := svc.(class_ := Some(CLASS));
      case OtherOperation =>
        return false;
      }
      patched := true;
    }
  }

  /** What the webhook makes of a Service. */
  function Admitted(operation: Operation, s: Service): Service {
    var ours := s.(class_ := Some(CLASS));
    match operation
    case Create => if s.isLB && !HasClass(s) && !HasCCMAnnotations(s) then ours else s
    case Update(old_) => if s.isLB && !HasClass(s) && IsOurs(old_) then ours else s
    case OtherOperation => s
  }

  /** Handling a Service twice is handling it once. */
  lemma Idempotent(operation: Operation, s: Service)
    ensures Admitted(operation, Admitted(operation, s)) == Admitted(operation, s)
  {
  }

  // ---------------------------------------------------------------------------
  // Runs of updates
  // ---------------------------------------------------------------------------

  /** The API server on an update: refuses to change a class that is set while the type stays. */
  predicate Refuses(stored: Service, submitted: Service) {
    stored.isLB && submitted.isLB && HasClass(stored) && submitted.class_ != stored.class_
  }

  /** What is stored after an update was submitted. */
  function Store(stored: Service, submitted: Service): Service {
    var admitted := Admitted(Update(stored), submitted);
    if Refuses(stored, admitted) then stored else admitted
  }

  /** What is stored after a creation and then a number of updates. */
  function Stored(created: Service, updates: seq<Service>): Service {
    if updates == [] then Admitted(Create, created)
    else Store(Stored(created, updates[..|updates| - 1]), updates[|updates| - 1])
  }

  /** A Service that nobody else manages keeps our class through every run of updates that keep its
      type, with or without a class in them. */
  lemma {:induction false} KeepsClass(created: Service, updates: seq<Service>)
    requires created.isLB && created.class_ in {None, Some("")}
    requires AUTOCREATE !in created.annotations && ELB_ID !in created.annotations
    requires forall i :: 0 <= i < |updates| ==> updates[i].isLB
    ensures Stored(created, updates).isLB && IsOurs(Stored(created, updates))
  {
    if updates != [] {
      KeepsClass(created, updates[..|updates| - 1]);
    }
  }

  /** ... and no update is refused for leaving the class out; only one that names another is. */
  lemma {:induction false} RefusedOnlyForAnother(created: Service, updates: seq<Service>, next: Service)
    requires created.isLB && created.class_ in {None, Some("")}
    requires AUTOCREATE !in created.annotations && ELB_ID !in created.annotations && next.isLB
    requires forall i :: 0 <= i < |updates| ==> updates[i].isLB
    ensures Refuses(Stored(created, updates), Admitted(Update(Stored(created, updates)), next)) <==>
      next.class_ !in {None, Some(""), Some(CLASS)}
  {
    KeepsClass(created, updates);
    assert HasClass(next) <==> next.class_ !in {None, Some("")};
  }

  /** What the API server would store after an update if there were no webhook. */
  function StorePlain(stored: Service, submitted: Service): Service {
    if Refuses(stored, submitted) then stored else submitted
  }

  function StoredPlain(created: Service, updates: seq<Service>): Service {
    if updates == [] then created
    else StorePlain(StoredPlain(created, updates[..|updates| - 1]), updates[|updates| - 1])
  }

  /** To a Service that somebody else manages, for it has a class or the annotations of the cloud's own
      controller, or that is no load balancer, the webhook does nothing, neither on its creation nor in any
      run of updates, as long as nobody names our class. */
  lemma {:induction false} LeavesOthersAlone(created: Service, updates: seq<Service>)
    requires !created.isLB || created.class_ !in {None, Some("")}
      || AUTOCREATE in created.annotations || ELB_ID in created.annotations
    requires !IsOurs(created) && forall i :: 0 <= i < |updates| ==> !IsOurs(updates[i])
    ensures Stored(created, updates) == StoredPlain(created, updates) && !IsOurs(Stored(created, updates))
  {
    if updates != [] {
      LeavesOthersAlone(created, updates[..|updates| - 1]);
    }
  }

  /** Once the type has changed and back, the class is lost for good: an update does not inject it. */
  lemma LostWithTheType(s: Service)
    requires s.isLB && IsOurs(s)
    ensures var plain := Store(s, s.(isLB := false, class_ := None));
      var again := Store(plain, s.(class_ := None));
      again.isLB && !IsOurs(again)
  {
  }
}
