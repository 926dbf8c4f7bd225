/**
 `claim_set` of `src/reconcile.rs`: the claims a process scan amounts to, sorted
 and without repeats. Lexicographic string order lives here too.
 */
module Claims {
  import opened World

  /** Strict lexicographic order. */
  predicate StringLess(a: string, b: string) {
    if b == "" then false
    else if a == "" then true
    else a[0] < b[0] || (a[0] == b[0] && StringLess(a[1..], b[1..]))
  }

  lemma {:induction false} StringLessIsStrict(a: string, b: string)
    ensures !(StringLess(a, b) && StringLess(b, a))
    ensures !StringLess(a, a)
    ensures StringLess(a, b) || StringLess(b, a) || a == b
  {
    if a != "" {
      if b != "" {
        StringLessIsStrict(a[1..], b[1..]);
        assert a == [a[0]] + a[1..] && b == [b[0]] + b[1..];
      } else {
        StringLessIsStrict(a[1..], a[1..]);
      }
    }
  }

  lemma {:induction false} StringLessTransitive(a: string, b: string, c: string)
    requires StringLess(a, b) && StringLess(b, c)
    ensures StringLess(a, c)
  {
    if a != "" && a[0] == b[0] == c[0] {
      StringLessTransitive(a[1..], b[1..], c[1..]);
    }
  }

  /** The derived order on claims: Steam games first, then by text. */
  predicate Less(a: Claim, b: Claim) {
    match (a, b)
    case (Steam(x), Steam(y)) => StringLess(x, y)
    case (Steam(_), Pattern(_)) => true
    case (Pattern(_), Steam(_)) => false
    case (Pattern(x), Pattern(y)) => StringLess(x, y)
  }

  lemma LessIsStrict(a: Claim, b: Claim)
    ensures !(Less(a, b) && Less(b, a)) && !Less(a, a)
    ensures Less(a, b) || Less(b, a) || a == b
  {
    match (a, b)
    case (Steam(x), Steam(y)) => StringLessIsStrict(x, y);
    case (Pattern(x), Pattern(y)) => StringLessIsStrict(x, y);
    case (Steam(x), Pattern(_)) => StringLessIsStrict(x, x);
    case (Pattern(x), Steam(_)) => StringLessIsStrict(x, x);
  }

  lemma LessTransitive(a: Claim, b: Claim, c: Claim)
    requires Less(a, b) && Less(b, c)
    ensures Less(a, c)
  {
    match (a, b, c)
    case (Steam(x), Steam(y), Steam(z)) => StringLessTransitive(x, y, z);
    case (Pattern(x), Pattern(y), Pattern(z)) => StringLessTransitive(x, y, z);
    case _ =>
  }

  predicate StrictlySorted(s: seq<Claim>) {
    forall i, j | 0 <= i < j < |s| :: Less(s[i], s[j])
  }

  /** Put a claim in its place unless it is already there. */
  function Insert(c: Claim, s: seq<Claim>): seq<Claim> {
    if s == [] then [c]
    else if c == s[0] then s
    else if Less(c, s[0]) then [c] + s
    else [s[0]] + Insert(c, s[1..])
  }

  /** What `sort` followed by `dedup` leaves. */
  function SortDedup(s: seq<Claim>): seq<Claim> {
    if s == [] then [] else Insert(s[|s| - 1], SortDedup(s[..|s| - 1]))
  }

  lemma {:induction false} InsertKeepsOrder(c: Claim, s: seq<Claim>)
    requires StrictlySorted(s)
    ensures StrictlySorted(Insert(c, s))
    ensures forall x :: x in Insert(c, s) <==> x == c || x in s
  {
    if s != [] {
      LessIsStrict(c, s[0]);
      assert s == [s[0]] + s[1..];
      if Less(c, s[0]) {
        forall j | 0 <= j < |s| ensures Less(c, s[j]) {
          if j > 0 { LessTransitive(c, s[0], s[j]); }
        }
      } else if c != s[0] {
        InsertKeepsOrder(c, s[1..]);
        var rest := Insert(c, s[1..]);
        forall j | 0 <= j < |rest| ensures Less(s[0], rest[j]) {
          assert rest[j] in rest;
        }
      }
    }
  }

  lemma {:induction false} SortDedupIsTheSet(s: seq<Claim>)
    ensures StrictlySorted(SortDedup(s))
    ensures forall x :: x in SortDedup(s) <==> x in s
  {
    if s != [] {
      var front := s[..|s| - 1];
      SortDedupIsTheSet(front);
      InsertKeepsOrder(s[|s| - 1], SortDedup(front));
      assert s == front + [s[|s| - 1]];
    }
  }

  /** Strict order leaves one way to list a set of claims. */
  lemma {:induction false} SortedIsCanonical(s: seq<Claim>, t: seq<Claim>)
    requires StrictlySorted(s) && StrictlySorted(t)
    requires forall x :: x in s <==> x in t
    ensures s == t
  {
    if s == [] {
      assert forall i | 0 <= i < |t| :: t[i] in s;
    } else {
      assert s[0] in t;
      assert t[0] in s;
      LessIsStrict(s[0], t[0]);
      forall x ensures x in s[1..] <==> x in t[1..] {
        LessIsStrict(s[0], s[0]);
        assert x in s <==> x == s[0] || x in s[1..];
        assert x in t <==> x == t[0] || x in t[1..];
      }
      SortedIsCanonical(s[1..], t[1..]);
    }
  }

  function Classified(cfg: Config, procs: seq<string>): seq<Claim> {
    if procs == [] then []
    else
      var front := Classified(cfg, procs[..|procs| - 1]);
      match cfg.classify(procs[|procs| - 1])
      case None => front
      case Some(c) => front + [c]
  }

  function ClaimsOf(cfg: Config, procs: seq<string>): seq<Claim> {
    SortDedup(Classified(cfg, procs))
  }

  method ClaimSet(cfg: Config, procs: seq<string>) returns (claims: seq<Claim>)
    ensures claims == ClaimsOf(cfg, procs)
  {
    claims := [];
    for i := 0 to |procs|
      invariant claims == Classified(cfg, procs[..i])
    {
      assert procs[..i + 1][..i] == procs[..i];
      var c := cfg.classify(procs[i]);
      if c.Some? {
        claims := claims + [c.value];
      }
    }
    assert procs[..|procs|] == procs;
    claims := SortDedup(claims);
  }

  lemma {:induction false} ClassifiedIsTheImage(cfg: Config, procs: seq<string>)
    ensures forall c :: c in Classified(cfg, procs) <==> exists p :: p in procs && cfg.classify(p) == Some(c)
  {
    if procs != [] {
      var front := procs[..|procs| - 1];
      var last := procs[|procs| - 1];
      ClassifiedIsTheImage(cfg, front);
      assert forall p :: p in procs <==> p in front || p == last;
    }
  }

  /** The claim list says exactly which claims some process raises, and two
      scans that raise the same claims yield the same list, in whatever order
      and however often the processes were seen. */
  lemma ClaimsAreCanonical(cfg: Config, procs: seq<string>, others: seq<string>)
    ensures forall c :: c in ClaimsOf(cfg, procs) <==> exists p :: p in procs && cfg.classify(p) == Some(c)
    ensures StrictlySorted(ClaimsOf(cfg, procs))
    ensures (forall c :: c in Classified(cfg, procs) <==> c in Classified(cfg, others)) ==>
      ClaimsOf(cfg, procs) == ClaimsOf(cfg, others)
  {
    ClassifiedIsTheImage(cfg, procs);
    SortDedupIsTheSet(Classified(cfg, procs));
    SortDedupIsTheSet(Classified(cfg, others));
    if forall c :: c in Classified(cfg, procs) <==> c in Classified(cfg, others) {
      SortedIsCanonical(ClaimsOf(cfg, procs), ClaimsOf(cfg, others));
    }
  }
}
