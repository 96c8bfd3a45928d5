/**
 Idempotency namespaces of tools: a digest derived hop by hop from the plan down
 to the Pipe that owns the tool, so that equal business keys of different Pipes
 never meet.
 */
module Namespaces {
  import opened Wrappers
  import opened Text
  import opened Plans
  import opened PlanHash

  /** `display` strips the credentials of a stream URI. */
  function DurablePlanKey(display: string -> string, t: Trigger): string {
    match t.kind
    case TriggerHTTP => "http:" + t.verb + " " + t.path
    case TriggerWebhook => "webhook:" + t.verb + " " + t.path
    case TriggerCron => "cron:" + t.expr
    case TriggerStream => "stream:" + display(t.uri)
  }

  /** The triggers are of one kind and have one route, one expression or one displayed source. */
  predicate SameTrigger(display: string -> string, t: Trigger, t': Trigger) {
    && t.kind == t'.kind
    && match t.kind
       case TriggerHTTP => t.verb == t'.verb && t.path == t'.path
       case TriggerWebhook => t.verb == t'.verb && t.path == t'.path
       case TriggerCron => t.expr == t'.expr
       case TriggerStream => display(t.uri) == display(t'.uri)
  }

  /** A request method is one word. */
  predicate VerbIsWord(t: Trigger) {
    t.kind == TriggerHTTP || t.kind == TriggerWebhook ==> ' ' !in t.verb
  }

  lemma FirstSpace(verb: string, path: string, verb': string, path': string)
    requires ' ' !in verb && ' ' !in verb' && verb + " " + path == verb' + " " + path'
    ensures verb == verb' && path == path'
  {
    var a, b := verb + " " + path, verb' + " " + path';
    assert a[|verb|] == ' ' && b[|verb'|] == ' ';
    assert forall i | 0 <= i < |verb| :: a[i] == verb[i];
    assert forall i | 0 <= i < |verb'| :: b[i] == verb'[i];
    assert |verb| == |verb'|;
    assert verb == a[..|verb|] && verb' == b[..|verb'|];
    assert path == a[|verb| + 1..] && path' == b[|verb'| + 1..];
  }

  lemma Behind(prefix: string, a: string, b: string)
    requires prefix + a == prefix + b
    ensures a == b
  {
    assert a == (prefix + a)[|prefix|..] && b == (prefix + b)[|prefix|..];
  }

  lemma KeyText(display: string -> string, t: Trigger)
    ensures t.kind == TriggerHTTP ==> DurablePlanKey(display, t) == "http:" + (t.verb + " " + t.path)
    ensures t.kind == TriggerWebhook ==> DurablePlanKey(display, t) == "webhook:" + (t.verb + " " + t.path)
  {
    assert "http:" + t.verb + " " + t.path == "http:" + (t.verb + " " + t.path);
    assert "webhook:" + t.verb + " " + t.path == "webhook:" + (t.verb + " " + t.path);
  }

  /** Two plans have the same key if and only if they have the same trigger. */
  lemma KeySeparates(display: string -> string, t: Trigger, t': Trigger)
    requires VerbIsWord(t) && VerbIsWord(t')
    ensures DurablePlanKey(display, t) == DurablePlanKey(display, t') <==> SameTrigger(display, t, t')
  {
    KeyText(display, t);
    KeyText(display, t');
    var key, key' := DurablePlanKey(display, t), DurablePlanKey(display, t');
    assert key[0] == (match t.kind case TriggerHTTP => 'h' case TriggerWebhook => 'w' case TriggerCron => 'c' case TriggerStream => 's');
    assert key'[0] == (match t'.kind case TriggerHTTP => 'h' case TriggerWebhook => 'w' case TriggerCron => 'c' case TriggerStream => 's');
    if key == key' {
      assert t.kind == t'.kind;
      match t.kind {
        case TriggerHTTP =>
          Behind("http:", t.verb + " " + t.path, t'.verb + " " + t'.path);
          FirstSpace(t.verb, t.path, t'.verb, t'.path);
        case TriggerWebhook =>
          Behind("webhook:", t.verb + " " + t.path, t'.verb + " " + t'.path);
          FirstSpace(t.verb, t.path, t'.verb, t'.path);
        case TriggerCron => Behind("cron:", t.expr, t'.expr);
        case TriggerStream => Behind("stream:", display(t.uri), display(t'.uri));
      }
    }
  }

  /** One derivation: the step at an absolute position, or a child pipeline of that step. */
  datatype Hop = StepHop(index: nat, step: Step) | ChildHop(kind: string, index: nat)

  function PlanNamespaceFields(planKey: string): seq<string> {
    ["ouvrier-tool-idempotency", "v1", planKey]
  }

  function HopFields(parent: string, hop: Hop): seq<string> {
    match hop
    case StepHop(index, step) =>
      ["ouvrier-tool-idempotency-step", "v1", parent, Itoa(index)] + StepsFields([step], 0)
    case ChildHop(kind, index) =>
      ["ouvrier-tool-idempotency-child", "v1", parent, kind, Itoa(index)]
  }

  function PlanNamespace(digest: string -> string, planKey: string): string {
    "pipe:" + digest(Frames(PlanNamespaceFields(planKey)))
  }

  function HopNamespace(digest: string -> string, parent: string, hop: Hop): string {
    "pipe:" + digest(Frames(HopFields(parent, hop)))
  }

  function Namespace(digest: string -> string, planKey: string, path: seq<Hop>): string {
    if path == [] then PlanNamespace(digest, planKey)
    else HopNamespace(digest, Namespace(digest, planKey, path[..|path| - 1]), path[|path| - 1])
  }

  ghost predicate PathGoSized(digest: string -> string, planKey: string, path: seq<Hop>) {
    GoSized(PlanNamespaceFields(planKey)) &&
    forall i | 0 <= i < |path| :: GoSized(HopFields(Namespace(digest, planKey, path[..i]), path[i]))
  }

  lemma HopFieldsInjective(parent: string, hop: Hop, parent': string, hop': Hop)
    requires HopFields(parent, hop) == HopFields(parent', hop')
    ensures parent == parent' && hop == hop'
  {
    hide StepsFields;
    var a, b := HopFields(parent, hop), HopFields(parent', hop');
    assert a[0] == b[0] && a[2] == b[2];
    if hop.StepHop? {
      var h, h' := ["ouvrier-tool-idempotency-step", "v1", parent, Itoa(hop.index)],
                   ["ouvrier-tool-idempotency-step", "v1", parent', Itoa(hop'.index)];
      Split(h, h', StepsFields([hop.step], 0), StepsFields([hop'.step], 0));
      assert h[3] == h'[3];
      ItoaInjective(hop.index, hop'.index);
      assert StepsFields([hop.step], 0) + [] == StepsFields([hop'.step], 0) + [];
      StepsCancel([hop.step], [hop'.step], 0, [], []);
      assert [hop.step][0] == [hop'.step][0];
    } else {
      assert a[3] == b[3] && a[4] == b[4];
      ItoaInjective(hop.index, hop'.index);
    }
  }

  lemma DigestInjective(digest: string -> string, xs: seq<string>, ys: seq<string>)
    requires CollisionFree(digest) && GoSized(xs) && GoSized(ys)
    requires "pipe:" + digest(Frames(xs)) == "pipe:" + digest(Frames(ys))
    ensures xs == ys
  {
    Split("pipe:", "pipe:", digest(Frames(xs)), digest(Frames(ys)));
    FramesInjective(xs, ys);
  }

  /**
   Separation: a namespace determines the plan key and the whole path of absolute
   positions and definitions, so no two different paths collide.
   */
  lemma {:induction false} NamespaceSeparates(digest: string -> string, key: string, path: seq<Hop>, key': string, path': seq<Hop>)
    requires CollisionFree(digest)
    requires PathGoSized(digest, key, path) && PathGoSized(digest, key', path')
    requires Namespace(digest, key, path) == Namespace(digest, key', path')
    ensures key == key' && path == path'
    decreases |path|
  {
    hide HopFields, PlanNamespaceFields, CollisionFree, PathGoSized;
    var n, n' := |path| - 1, |path'| - 1;
    if path != [] {
      LastGoSized(digest, key, path);
      PrefixGoSized(digest, key, path);
    }
    if path' != [] {
      LastGoSized(digest, key', path');
      PrefixGoSized(digest, key', path');
    }
    PlanGoSized(digest, key, path);
    PlanGoSized(digest, key', path');
    if path == [] && path' == [] {
      PlansDiffer(digest, key, key');
    } else if path == [] {
      PlanIsNoHop(digest, key, Namespace(digest, key', path'[..n']), path'[n']);
    } else if path' == [] {
      PlanIsNoHop(digest, key', Namespace(digest, key, path[..n]), path[n]);
    } else {
      HopsDiffer(digest, Namespace(digest, key, path[..n]), path[n], Namespace(digest, key', path'[..n']), path'[n']);
      hide Namespace, HopNamespace, PlanNamespace;
      NamespaceSeparates(digest, key, path[..n], key', path'[..n']);
      assert path == path[..n] + [path[n]] && path' == path'[..n'] + [path'[n']];
    }
  }

  /**
   Two tools of two plans share their idempotency namespace if and only if the plans have
   the same trigger and the tools the same path of positions and definitions.
   */
  lemma PlansAreSeparate(digest: string -> string, display: string -> string, t: Trigger, path: seq<Hop>, t': Trigger, path': seq<Hop>)
    requires CollisionFree(digest) && VerbIsWord(t) && VerbIsWord(t')
    requires PathGoSized(digest, DurablePlanKey(display, t), path) && PathGoSized(digest, DurablePlanKey(display, t'), path')
    ensures (Namespace(digest, DurablePlanKey(display, t), path) == Namespace(digest, DurablePlanKey(display, t'), path'))
              <==> (SameTrigger(display, t, t') && path == path')
  {
    hide DurablePlanKey, PathGoSized, Namespace, CollisionFree, SameTrigger;
    KeySeparates(display, t, t');
    var key, key' := DurablePlanKey(display, t), DurablePlanKey(display, t');
    if Namespace(digest, key, path) == Namespace(digest, key', path') {
      NamespaceSeparates(digest, key, path, key', path');
    }
  }

  lemma PlanGoSized(digest: string -> string, key: string, path: seq<Hop>)
    requires PathGoSized(digest, key, path)
    ensures GoSized(PlanNamespaceFields(key))
  {
  }

  lemma LastGoSized(digest: string -> string, key: string, path: seq<Hop>)
    requires path != [] && PathGoSized(digest, key, path)
    ensures GoSized(HopFields(Namespace(digest, key, path[..|path| - 1]), path[|path| - 1]))
  {
    hide HopFields, PlanNamespaceFields, Namespace;
  }

  lemma PrefixGoSized(digest: string -> string, key: string, path: seq<Hop>)
    requires path != [] && PathGoSized(digest, key, path)
    ensures PathGoSized(digest, key, path[..|path| - 1])
  {
    hide HopFields, PlanNamespaceFields, Namespace;
    var n := |path| - 1;
    forall i | 0 <= i < n
      ensures GoSized(HopFields(Namespace(digest, key, path[..n][..i]), path[..n][i]))
    {
      assert path[..n][..i] == path[..i];
    }
  }

  lemma PlansDiffer(digest: string -> string, key: string, key': string)
    requires CollisionFree(digest) && GoSized(PlanNamespaceFields(key)) && GoSized(PlanNamespaceFields(key'))
    requires PlanNamespace(digest, key) == PlanNamespace(digest, key')
    ensures key == key'
  {
    DigestInjective(digest, PlanNamespaceFields(key), PlanNamespaceFields(key'));
    assert PlanNamespaceFields(key)[2] == PlanNamespaceFields(key')[2];
  }

  lemma HopsDiffer(digest: string -> string, parent: string, hop: Hop, parent': string, hop': Hop)
    requires CollisionFree(digest) && GoSized(HopFields(parent, hop)) && GoSized(HopFields(parent', hop'))
    requires HopNamespace(digest, parent, hop) == HopNamespace(digest, parent', hop')
    ensures parent == parent' && hop == hop'
  {
    hide HopFields;
    DigestInjective(digest, HopFields(parent, hop), HopFields(parent', hop'));
    HopFieldsInjective(parent, hop, parent', hop');
  }

  lemma PlanIsNoHop(digest: string -> string, key: string, parent: string, hop: Hop)
    requires CollisionFree(digest) && GoSized(PlanNamespaceFields(key)) && GoSized(HopFields(parent, hop))
    ensures PlanNamespace(digest, key) != HopNamespace(digest, parent, hop)
  {
    assert |HopFields(parent, hop)| > 3;
    hide HopFields;
    if PlanNamespace(digest, key) == HopNamespace(digest, parent, hop) {
      DigestInjective(digest, PlanNamespaceFields(key), HopFields(parent, hop));
    }
  }
}
