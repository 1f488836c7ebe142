// What the policy permits: who a rule is about, and which of its lists counts.

module Policy {
  import opened Types
  import opened Broker

  // The rule is about this client: by name, or about everybody; a client without
  // an identity goes by "anonymous".
  ghost predicate Concerns(rule: Rule, identity: Option<string>) {
    || rule.identity == "*"
    || (match identity
        case None => rule.identity == "anonymous"
        case Some(name) => rule.identity == name)
  }

  // Some rule about the client lists a filter, by `list`, that matches the name.
  ghost predicate Listed(env: Env, rules: seq<Rule>, list: Rule -> seq<string>, identity: Option<string>,
                         name: string) {
    exists i, j :: 0 <= i < |rules| && 0 <= j < |list(rules[i])|
                   && Concerns(rules[i], identity) && env.matches(list(rules[i])[j], name)
  }

  const PUBLISHING: Rule -> seq<string> := (r: Rule) => r.publish
  const SUBSCRIBING: Rule -> seq<string> := (r: Rule) => r.subscribe

  // Without an enforced policy, or by default, everything is permitted;
  // otherwise exactly what a rule about the client lists for the operation.
  lemma {:induction false} PublishPermitted(env: Env, acl: Acl, identity: Option<string>, topic: string)
    ensures CanPublish(env, acl, Who(identity), topic) <==>
      !acl.enforced || acl.defaultAllow || Listed(env, acl.rules, PUBLISHING, identity, topic)
  {
    if Listed(env, acl.rules, PUBLISHING, identity, topic) {
      var i, j :| 0 <= i < |acl.rules| && 0 <= j < |PUBLISHING(acl.rules[i])|
                  && Concerns(acl.rules[i], identity) && env.matches(PUBLISHING(acl.rules[i])[j], topic);
      assert Covers(env, acl.rules[i].publish, topic);
    }
    if i :| 0 <= i < |acl.rules| && Applicable(acl.rules[i], Who(identity))
            && Covers(env, acl.rules[i].publish, topic)
    {
      var j :| 0 <= j < |acl.rules[i].publish| && env.matches(acl.rules[i].publish[j], topic);
      assert env.matches(PUBLISHING(acl.rules[i])[j], topic);
      Named(acl.rules[i], identity);
    }
  }

  lemma {:induction false} SubscribePermitted(env: Env, acl: Acl, identity: Option<string>, filter: string)
    ensures CanSubscribe(env, acl, Who(identity), filter) <==>
      !acl.enforced || acl.defaultAllow || Listed(env, acl.rules, SUBSCRIBING, identity, filter)
  {
    if Listed(env, acl.rules, SUBSCRIBING, identity, filter) {
      var i, j :| 0 <= i < |acl.rules| && 0 <= j < |SUBSCRIBING(acl.rules[i])|
                  && Concerns(acl.rules[i], identity) && env.matches(SUBSCRIBING(acl.rules[i])[j], filter);
      assert Covers(env, acl.rules[i].subscribe, filter);
    }
    if i :| 0 <= i < |acl.rules| && Applicable(acl.rules[i], Who(identity))
            && Covers(env, acl.rules[i].subscribe, filter)
    {
      var j :| 0 <= j < |acl.rules[i].subscribe| && env.matches(acl.rules[i].subscribe[j], filter);
      assert env.matches(SUBSCRIBING(acl.rules[i])[j], filter);
      Named(acl.rules[i], identity);
    }
  }

  lemma {:induction false} Named(rule: Rule, identity: Option<string>)
    ensures Applicable(rule, Who(identity)) <==> Concerns(rule, identity)
  {
  }

  // The two operations do not look at each other's lists.
  lemma {:induction false} ListsAreIndependent(env: Env, acl: Acl, other: Acl, who: string, name: string)
    requires other.enforced == acl.enforced && other.defaultAllow == acl.defaultAllow && |other.rules| == |acl.rules|
    requires forall i :: 0 <= i < |acl.rules| ==> other.rules[i].identity == acl.rules[i].identity
    ensures (forall i :: 0 <= i < |acl.rules| ==> other.rules[i].publish == acl.rules[i].publish) ==>
      CanPublish(env, other, who, name) == CanPublish(env, acl, who, name)
    ensures (forall i :: 0 <= i < |acl.rules| ==> other.rules[i].subscribe == acl.rules[i].subscribe) ==>
      CanSubscribe(env, other, who, name) == CanSubscribe(env, acl, who, name)
  {
  }
}
