/**
 Refresh-token rotation with reuse detection. A login opens a family; every
 successful rotation retires the presented token and adds the next one.
 */
module RefreshTokens {
  import opened Seqs

  type Token = string
  type Family = string

  datatype RefreshToken = RefreshToken(family: Family, subject: string, tenant: nat)

  datatype State = State(tokens: map<Token, RefreshToken>, current: map<Family, Token>, revoked: set<Family>)

  /** `drawn` is the token value generated, used only if a token is handed out. */
  datatype Op =
    | Issue(subject: string, tenant: nat, family: Family, drawn: Token)
    | Rotate(presented: Token, drawn: Token)
    | Revoke(family: Family)

  datatype Verdict = Rotated | Unknown | FamilyRevoked | Reused

  const EMPTY := State(map[], map[], {})

  function Judge(s: State, t: Token): Verdict {
    if t !in s.tokens then Unknown
    else if s.tokens[t].family in s.revoked then FamilyRevoked
    else if s.tokens[t].family !in s.current || s.current[s.tokens[t].family] != t then Reused
    else Rotated
  }

  /** Drawn values never repeat; an operation drawing a known one does not happen. */
  predicate Enabled(s: State, op: Op) {
    match op
    case Issue(_, _, f, t) => f !in s.current && t !in s.tokens
    case Rotate(_, t) => t !in s.tokens
    case Revoke(_) => true
  }

  function Step(s: State, op: Op): State {
    if !Enabled(s, op) then s else
    match op
    case Issue(subject, tenant, f, t) =>
      s.(tokens := s.tokens[t := RefreshToken(f, subject, tenant)], current := s.current[f := t])
    case Rotate(t, t') =>
      (match Judge(s, t)
       case Rotated =>
         s.(tokens := s.tokens[t' := s.tokens[t]], current := s.current[s.tokens[t].family := t'])
       case Reused => s.(revoked := s.revoked + {s.tokens[t].family})
       case _ => s)
    case Revoke(f) => s.(revoked := s.revoked + {f})
  }

  function Run(h: seq<Op>): State {
    if h == [] then EMPTY else Step(Run(h[..|h| - 1]), h[|h| - 1])
  }

  // ----- the reference: a family's chain, read off the history -----

  /** Who a family was issued to. */
  function Owner(h: seq<Op>, f: Family): Option<RefreshToken> {
    if h == [] then None else NextOwner(Run(h[..|h| - 1]), h[|h| - 1], f, Owner(h[..|h| - 1], f))
  }

  predicate Retired(chain: seq<Token>, t: Token) {
    t in chain && t != chain[|chain| - 1]
  }

  /**
   The tokens of a family in the order they were handed out, and whether the
   family is compromised: it was revoked, or a retired token was presented.
   */
  datatype Chain = Chain(tokens: seq<Token>, compromised: bool)

  function NextChain(s: State, op: Op, f: Family, c: Chain): Chain {
    if !Enabled(s, op) then c else
    match op
    case Issue(_, _, g, t) => if g == f then c.(tokens := [t]) else c
    case Rotate(t, t') =>
      if t !in c.tokens then c
      else if Retired(c.tokens, t) then c.(compromised := true)
      else if c.compromised then c
      else c.(tokens := c.tokens + [t'])
    case Revoke(g) => if g == f then c.(compromised := true) else c
  }

  function ChainOf(h: seq<Op>, f: Family): Chain {
    if h == [] then Chain([], false) else NextChain(Run(h[..|h| - 1]), h[|h| - 1], f, ChainOf(h[..|h| - 1], f))
  }

  ghost predicate FamilyOk(s: State, f: Family, c: Chain, owner: Option<RefreshToken>) {
    && NoDup(c.tokens)
    && (forall t :: t in c.tokens <==> t in s.tokens && s.tokens[t].family == f)
    && (f in s.current <==> c.tokens != [])
    && (c.tokens != [] <==> owner.Some?)
    && (c.tokens != [] ==> s.current[f] == c.tokens[|c.tokens| - 1])
    && (forall t | t in c.tokens :: s.tokens[t] == owner.value)
    && (f in s.revoked <==> c.compromised)
  }

  function NextOwner(s: State, op: Op, f: Family, owner: Option<RefreshToken>): Option<RefreshToken> {
    if owner.Some? then owner
    else if op.Issue? && op.family == f && Enabled(s, op) then Some(RefreshToken(f, op.subject, op.tenant))
    else None
  }

  lemma IssueKeeps(s: State, op: Op, f: Family, c: Chain, owner: Option<RefreshToken>)
    requires FamilyOk(s, f, c, owner) && !op.Rotate?
    ensures FamilyOk(Step(s, op), f, NextChain(s, op, f, c), NextOwner(s, op, f, owner))
  {
  }

  lemma RotateKeeps(s: State, op: Op, f: Family, c: Chain, owner: Option<RefreshToken>)
    requires FamilyOk(s, f, c, owner) && op.Rotate?
    ensures FamilyOk(Step(s, op), f, NextChain(s, op, f, c), NextOwner(s, op, f, owner))
  {
    var c' := NextChain(s, op, f, c);
    if c'.tokens != c.tokens {
      assert c'.tokens == c.tokens + [op.drawn];
    }
  }

  /**
   Each family is one chain without repeats, all for the subject and tenant it
   was issued to; the store's current token is its last, and the family is
   revoked exactly if it is compromised.
   */
  lemma {:induction false} FamilyIsChain(h: seq<Op>, f: Family)
    ensures FamilyOk(Run(h), f, ChainOf(h, f), Owner(h, f))
  {
    if h == [] {
    } else {
      var p, op := h[..|h| - 1], h[|h| - 1];
      FamilyIsChain(p, f);
      if op.Rotate? {
        RotateKeeps(Run(p), op, f, ChainOf(p, f), Owner(p, f));
      } else {
        IssueKeeps(Run(p), op, f, ChainOf(p, f), Owner(p, f));
      }
    }
  }

  /** The last token of a family that is not compromised. */
  predicate LiveEnd(c: Chain, t: Token) {
    c.tokens != [] && c.tokens[|c.tokens| - 1] == t && !c.compromised
  }

  /** A presented token rotates if and only if it is the last of its family's chain and the family is not compromised. */
  lemma RotatesIffLast(h: seq<Op>, t: Token)
    ensures Judge(Run(h), t) == Rotated <==> exists f :: LiveEnd(ChainOf(h, f), t)
  {
    var s := Run(h);
    if Judge(s, t) == Rotated {
      var f := s.tokens[t].family;
      FamilyIsChain(h, f);
      assert LiveEnd(ChainOf(h, f), t);
    }
    if f :| LiveEnd(ChainOf(h, f), t) {
      FamilyIsChain(h, f);
      assert t in ChainOf(h, f).tokens;
    }
  }

  /** The token is of a family that is compromised, or a retired one of a family that is not. */
  ghost predicate InDeadFamily(h: seq<Op>, t: Token) {
    exists f :: t in ChainOf(h, f).tokens && ChainOf(h, f).compromised
  }

  ghost predicate RetiredAlive(h: seq<Op>, t: Token) {
    exists f :: Retired(ChainOf(h, f).tokens, t) && !ChainOf(h, f).compromised
  }

  ghost predicate HandedOut(h: seq<Op>, t: Token) {
    exists f :: t in ChainOf(h, f).tokens
  }

  /** A token is in the chain of its own family and of no other. */
  lemma OwnChain(h: seq<Op>, t: Token, f: Family)
    ensures t in ChainOf(h, f).tokens <==> t in Run(h).tokens && Run(h).tokens[t].family == f
  {
    FamilyIsChain(h, f);
  }

  /** What presenting a token leads to: unknown if never handed out, revoked in a compromised family, reuse if retired. */
  lemma VerdictIs(h: seq<Op>, t: Token)
    ensures Judge(Run(h), t) == Unknown <==> !HandedOut(h, t)
    ensures Judge(Run(h), t) == FamilyRevoked <==> InDeadFamily(h, t)
    ensures Judge(Run(h), t) == Reused <==> RetiredAlive(h, t)
  {
    var s := Run(h);
    forall f ensures t in ChainOf(h, f).tokens <==> t in s.tokens && s.tokens[t].family == f {
      OwnChain(h, t, f);
    }
    if t in s.tokens {
      FamilyIsChain(h, s.tokens[t].family);
      assert t in ChainOf(h, s.tokens[t].family).tokens;
    }
  }

  /** Successful rotations of one token over a run. */
  function Rotations(h: seq<Op>, t: Token): nat {
    if h == [] then 0 else
      var p, op := h[..|h| - 1], h[|h| - 1];
      Rotations(p, t)
      + (if op.Rotate? && op.presented == t && Enabled(Run(p), op) && Judge(Run(p), t) == Rotated then 1 else 0)
  }

  /** Every token rotates successfully at most once: exactly once if it has been retired. */
  lemma {:induction false} RotatesOnce(h: seq<Op>, f: Family, t: Token)
    ensures t in ChainOf(h, f).tokens ==> Rotations(h, t) == if Retired(ChainOf(h, f).tokens, t) then 1 else 0
    ensures t !in Run(h).tokens ==> Rotations(h, t) == 0
  {
    FamilyIsChain(h, f);
    if h == [] {
    } else {
      var p, op := h[..|h| - 1], h[|h| - 1];
      RotatesOnce(p, f, t);
      FamilyIsChain(p, f);
      if op.Rotate? && op.presented in Run(p).tokens {
        FamilyIsChain(p, Run(p).tokens[op.presented].family);
      }
    }
  }

  /** A compromised family stays as it is, whatever follows. */
  lemma {:induction false} CompromiseIsFinal(h: seq<Op>, g: seq<Op>, f: Family)
    requires ChainOf(h, f).compromised && ChainOf(h, f).tokens != []
    ensures ChainOf(h + g, f) == ChainOf(h, f)
  {
    if g == [] {
      assert h + g == h;
    } else {
      var g' := g[..|g| - 1];
      CompromiseIsFinal(h, g', f);
      assert (h + g)[..|h + g| - 1] == h + g';
      FamilyIsChain(h + g', f);
    }
  }

  /**
   Replay detection: once any retired token of a family is presented, no token
   of that family ever rotates again.
   */
  lemma ReplayKillsFamily(h: seq<Op>, stolen: Token, drawn: Token, g: seq<Op>, f: Family, t: Token)
    requires Retired(ChainOf(h, f).tokens, stolen) && drawn !in Run(h).tokens
    requires t in ChainOf(h + [Rotate(stolen, drawn)] + g, f).tokens
    ensures Judge(Run(h + [Rotate(stolen, drawn)] + g), t) == FamilyRevoked
  {
    var h' := h + [Rotate(stolen, drawn)];
    assert h'[..|h|] == h;
    CompromiseIsFinal(h', g, f);
    FamilyIsChain(h' + g, f);
  }

  // ----- the store -----

  class InMemoryRefreshTokenStore {
    var tokens: map<Token, RefreshToken>
    var current: map<Family, Token>
    var revoked: set<Family>
    ghost var history: seq<Op>

    ghost predicate Valid()
      reads this
    {
      State(tokens, current, revoked) == Run(history)
    }

    constructor ()
      ensures Valid() && history == []
    {
      tokens, current, revoked, history := map[], map[], {}, [];
    }

    ghost method Log(op: Op)
      requires State(tokens, current, revoked) == Step(Run(history), op)
      modifies this`history
      ensures Valid() && history == old(history) + [op]
    {
      history := history + [op];
      assert history[..|history| - 1] == old(history);
    }

    method IssueToken(subject: string, tenant: nat, family: Family, drawn: Token) returns (rt: RefreshToken)
      requires Valid() && family !in current && drawn !in tokens
      modifies this
      ensures Valid() && history == old(history) + [Issue(subject, tenant, family, drawn)]
      ensures rt == RefreshToken(family, subject, tenant) && drawn in tokens && tokens[drawn] == rt
    {
      rt := RefreshToken(family, subject, tenant);
      tokens := tokens[drawn := rt];
      current := current[family := drawn];
      Log(Issue(subject, tenant, family, drawn));
    }

    method RotateToken(presented: Token, drawn: Token) returns (v: Verdict)
      requires Valid() && drawn !in tokens
      modifies this
      ensures Valid() && history == old(history) + [Rotate(presented, drawn)]
      ensures v == Judge(Run(old(history)), presented)
      ensures v.Rotated? <==> drawn in tokens
    {
      if presented !in tokens {
        v := Unknown;
      } else {
        var existing := tokens[presented];
        if existing.family in revoked {
          v := FamilyRevoked;
        } else if existing.family !in current || current[existing.family] != presented {
          revoked := revoked + {existing.family};
          v := Reused;
        } else {
          tokens := tokens[drawn := existing];
          current := current[existing.family := drawn];
          v := Rotated;
        }
      }
      Log(Rotate(presented, drawn));
    }

    method RevokeFamily(family: Family)
      requires Valid()
      modifies this
      ensures Valid() && history == old(history) + [Revoke(family)]
    {
      revoked := revoked + {family};
      Log(Revoke(family));
    }
  }
}
