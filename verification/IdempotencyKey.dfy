/** The text of an idempotency key and what it determines. */
module IdempotencyKey {
  import opened ActionModel

  const KEY_PREFIX := "action-execution:v1:"

  function ActionText(action: ActionType): string {
    match action
    case Refund => "refund"
    case Compensation => "compensation"
  }

  /** The identifiers a key is built from, as text. */
  datatype KeyParts = KeyParts(organization: string, proposal: string, version: string, action: ActionType)

  function BuildKey(parts: KeyParts): string {
    KEY_PREFIX + parts.organization + ":" + parts.proposal + ":" + parts.version + ":" + ActionText(parts.action)
  }

  /** The key spells its five fields in this order. */
  lemma KeySpells(organization: string, proposal: string, version: string)
    ensures BuildKey(KeyParts(organization, proposal, version, Refund))
         == "action-execution:v1:" + organization + ":" + proposal + ":" + version + ":refund"
    ensures BuildKey(KeyParts(organization, proposal, version, Compensation))
         == "action-execution:v1:" + organization + ":" + proposal + ":" + version + ":compensation"
  {
    var start := "action-execution:v1:" + organization + ":" + proposal + ":" + version;
    assert start + ":" + "refund" == start + ":refund" && start + ":" + "compensation" == start + ":compensation";
  }

  predicate ColonFree(s: string) {
    ':' !in s
  }

  predicate PartsColonFree(parts: KeyParts) {
    ColonFree(parts.organization) && ColonFree(parts.proposal) && ColonFree(parts.version)
  }

  /** Two texts that start with colon-free fields of their own followed by a colon and
      agree as a whole agree field by field. */
  lemma FirstFieldDetermined(a: string, b: string, rest: string, rest': string)
    requires ColonFree(a) && ColonFree(b)
    requires a + ":" + rest == b + ":" + rest'
    ensures a == b && rest == rest'
  {
    var left, right := a + ":" + rest, b + ":" + rest';
    assert left[|a|] == ':' && forall i :: 0 <= i < |b| ==> right[i] == b[i];
    assert right[|b|] == ':' && forall i :: 0 <= i < |a| ==> left[i] == a[i];
    assert left[..|a|] == a && right[..|b|] == b;
    assert left[|a| + 1..] == rest && right[|b| + 1..] == rest';
  }

  /** Identifiers without a colon never share a key: the lock and the unique column of the
      key keep exactly one execution per organization, proposal, version and action. */
  lemma BuildKeyInjective(p: KeyParts, q: KeyParts)
    requires PartsColonFree(p) && PartsColonFree(q)
    ensures BuildKey(p) == BuildKey(q) <==> p == q
  {
    if BuildKey(p) == BuildKey(q) {
      var tail := (x: KeyParts) => x.version + ":" + ActionText(x.action);
      var middle := (x: KeyParts) => x.proposal + ":" + tail(x);
      assert forall x: KeyParts :: BuildKey(x) == KEY_PREFIX + (x.organization + ":" + middle(x));
      assert (KEY_PREFIX + (p.organization + ":" + middle(p)))[|KEY_PREFIX|..] == p.organization + ":" + middle(p);
      assert (KEY_PREFIX + (q.organization + ":" + middle(q)))[|KEY_PREFIX|..] == q.organization + ":" + middle(q);
      FirstFieldDetermined(p.organization, q.organization, middle(p), middle(q));
      FirstFieldDetermined(p.proposal, q.proposal, tail(p), tail(q));
      FirstFieldDetermined(p.version, q.version, ActionText(p.action), ActionText(q.action));
      assert |ActionText(Refund)| != |ActionText(Compensation)|;
    }
  }

  /** Why the identifiers must be free of colons. */
  lemma ColonsCollide()
    ensures BuildKey(KeyParts("o", "p:x", "v", Refund)) == BuildKey(KeyParts("o", "p", "x:v", Refund))
  {
    assert "p:x" + ":" + "v" == "p" + ":" + "x:v";
  }

  function Colons(s: string): nat {
    if s == "" then 0 else (if s[0] == ':' then 1 else 0) + Colons(s[1..])
  }

  lemma {:induction false} ColonsAdd(a: string, b: string)
    ensures Colons(a + b) == Colons(a) + Colons(b)
  {
    if a == "" {
      assert a + b == b;
    } else {
      assert (a + b)[1..] == a[1..] + b;
      ColonsAdd(a[1..], b);
    }
  }

  lemma {:induction false} NoColons(s: string)
    ensures Colons(s) == 0 <==> ColonFree(s)
  {
    if s != "" {
      NoColons(s[1..]);
      assert s == [s[0]] + s[1..];
    }
  }

  /** A key has three colons besides those of its prefix and its identifiers. */
  lemma ColonsOfKey(p: KeyParts)
    ensures Colons(BuildKey(p)) == Colons(KEY_PREFIX) + Colons(p.organization) + Colons(p.proposal) + Colons(p.version) + 3
  {
    hide Colons;
    ColonsAdd(KEY_PREFIX, p.organization);
    ColonsAdd(KEY_PREFIX + p.organization, ":");
    ColonsAdd(KEY_PREFIX + p.organization + ":", p.proposal);
    ColonsAdd(KEY_PREFIX + p.organization + ":" + p.proposal, ":");
    ColonsAdd(KEY_PREFIX + p.organization + ":" + p.proposal + ":", p.version);
    ColonsAdd(KEY_PREFIX + p.organization + ":" + p.proposal + ":" + p.version, ":");
    ColonsAdd(KEY_PREFIX + p.organization + ":" + p.proposal + ":" + p.version + ":", ActionText(p.action));
    OneColon();
    NoColons(ActionText(p.action));
  }

  lemma OneColon()
    ensures Colons(":") == 1
  {
  }

  lemma Cut(before: string, a: string, b: string)
    ensures before + (a + ":" + b) == before + a + ":" + b
  {
  }

  lemma AtColon(s: string) returns (a: string, b: string)
    requires !ColonFree(s)
    ensures s == a + ":" + b
  {
    var i :| 0 <= i < |s| && s[i] == ':';
    a, b := s[..i], s[i + 1..];
  }

  /** Other identifiers under the key of p, when one of p's has a colon: the text is cut elsewhere. */
  lemma CutElsewhere(p: KeyParts) returns (q: KeyParts)
    requires !PartsColonFree(p)
    ensures q != p && BuildKey(q) == BuildKey(p)
  {
    hide ColonFree, ActionText;
    var organization, proposal, version := p.organization, p.proposal, p.version;
    if !ColonFree(organization) {
      var a, b := AtColon(organization);
      q := KeyParts(a, b, proposal + ":" + version, p.action);
      Cut(KEY_PREFIX, a, b);
      Cut(KEY_PREFIX + a + ":" + b + ":", proposal, version);
      assert |q.organization| < |organization|;
    } else if !ColonFree(proposal) {
      var a, b := AtColon(proposal);
      q := KeyParts(organization + ":" + a, b, version, p.action);
      Cut(KEY_PREFIX + organization + ":", a, b);
      Cut(KEY_PREFIX, organization, a);
      assert |q.organization| > |organization|;
    } else {
      var a, b := AtColon(version);
      q := KeyParts(organization + ":" + proposal, a, b, p.action);
      Cut(KEY_PREFIX + organization + ":" + proposal + ":", a, b);
      Cut(KEY_PREFIX, organization, proposal);
      assert |q.organization| > |organization|;
    }
  }

  /** Exactly when a key belongs to no other identifiers, whatever those look like. */
  lemma UnambiguousIff(p: KeyParts)
    ensures (forall q :: BuildKey(q) == BuildKey(p) ==> q == p) <==> PartsColonFree(p)
  {
    if PartsColonFree(p) {
      forall q | BuildKey(q) == BuildKey(p)
        ensures q == p
      {
        ColonsOfKey(p);
        ColonsOfKey(q);
        NoColons(p.organization);
        NoColons(p.proposal);
        NoColons(p.version);
        NoColons(q.organization);
        NoColons(q.proposal);
        NoColons(q.version);
        BuildKeyInjective(p, q);
      }
    } else {
      var q := CutElsewhere(p);
    }
  }

  /** The text of a key of the model, given how its identifiers are written. */
  function KeyText(organization: string, text: Id -> string, key: Key): string {
    BuildKey(KeyParts(organization, text(key.proposal), text(key.version), key.action))
  }

  /** Comparing key texts, as the lock table and the unique column do, is comparing keys. */
  lemma KeyTextDeterminesKey(organization: string, text: Id -> string, key: Key, other: Key)
    requires ColonFree(organization) && forall id :: ColonFree(text(id))
    requires forall i, j :: text(i) == text(j) ==> i == j
    ensures KeyText(organization, text, key) == KeyText(organization, text, other) <==> key == other
  {
    BuildKeyInjective(KeyParts(organization, text(key.proposal), text(key.version), key.action),
                      KeyParts(organization, text(other.proposal), text(other.version), other.action));
  }
}
