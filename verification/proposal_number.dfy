/** Proposal numbers: pairs (round number, proposer server id) under Python's tuple order. */
module ProposalNumbers {

  /** A proposal number; the server id makes numbers of distinct proposers distinct. */
  datatype ProposalNumber = ProposalNumber(number: int, serverId: string)

  /** Python's `<` on `str`: code point by code point, and a proper prefix is smaller. */
  predicate StrLess(a: string, b: string)
    decreases |a|
  {
    |b| > 0 && (|a| == 0 || a[0] < b[0] || (a[0] == b[0] && StrLess(a[1..], b[1..])))
  }

  /** Tuple `<`: the round number first, then the server id. */
  predicate Less(a: ProposalNumber, b: ProposalNumber)
  {
    a.number < b.number || (a.number == b.number && StrLess(a.serverId, b.serverId))
  }

  /** Tuple `<=`. */
  predicate LessEq(a: ProposalNumber, b: ProposalNumber)
  {
    a == b || Less(a, b)
  }

  /** The sentinel `ProposalNumber.min()`. */
  function Min(): ProposalNumber
  {
    ProposalNumber(-1, "")
  }

  // ---------------------------------------------------------------- strings

  lemma {:induction false} StrLessIrreflexive(a: string)
    ensures !StrLess(a, a)
  {
    if |a| > 0 {
      StrLessIrreflexive(a[1..]);
    }
  }

  lemma {:induction false} StrLessTransitive(a: string, b: string, c: string)
    requires StrLess(a, b) && StrLess(b, c)
    ensures StrLess(a, c)
  {
    if |a| > 0 && a[0] == b[0] && b[0] == c[0] {
      StrLessTransitive(a[1..], b[1..], c[1..]);
    }
  }

  lemma {:induction false} StrLessTotal(a: string, b: string)
    ensures a == b || StrLess(a, b) || StrLess(b, a)
  {
    if |a| > 0 && |b| > 0 && a[0] == b[0] {
      StrLessTotal(a[1..], b[1..]);
      if a[1..] == b[1..] {
        assert a == [a[0]] + a[1..] && b == [b[0]] + b[1..];
      }
    }
  }

  lemma {:induction false} StrLessAsymmetric(a: string, b: string)
    requires StrLess(a, b)
    ensures !StrLess(b, a)
  {
    if |a| > 0 && a[0] == b[0] {
      StrLessAsymmetric(a[1..], b[1..]);
    }
  }

  /** Strings sharing a prefix compare as their remainders do, so "proposer-1" < "proposer-2". */
  lemma {:induction false} StrLessCommonPrefix(p: string, a: string, b: string)
    ensures StrLess(p + a, p + b) <==> StrLess(a, b)
  {
    if |p| > 0 {
      assert (p + a)[0] == p[0] == (p + b)[0];
      assert (p + a)[1..] == p[1..] + a && (p + b)[1..] == p[1..] + b;
      StrLessCommonPrefix(p[1..], a, b);
    } else {
      assert p + a == a && p + b == b;
    }
  }

  // ------------------------------------------------------- proposal numbers

  /** `<` is a strict total order: irreflexive ... */
  lemma LessIrreflexive(a: ProposalNumber)
    ensures !Less(a, a)
  {
    StrLessIrreflexive(a.serverId);
  }

  /** ... transitive ... */
  lemma LessTransitive(a: ProposalNumber, b: ProposalNumber, c: ProposalNumber)
    requires Less(a, b) && Less(b, c)
    ensures Less(a, c)
  {
    if a.number == b.number == c.number {
      StrLessTransitive(a.serverId, b.serverId, c.serverId);
    }
  }

  /** ... and any two numbers are equal or ordered one way. */
  lemma LessTotal(a: ProposalNumber, b: ProposalNumber)
    ensures a == b || Less(a, b) || Less(b, a)
  {
    StrLessTotal(a.serverId, b.serverId);
  }

  /** `a > b` is the same as `not (a <= b)`: the acceptor's `>=` test and the proposer's `>` test agree. */
  lemma NotLessEqIsGreater(a: ProposalNumber, b: ProposalNumber)
    ensures !LessEq(a, b) <==> Less(b, a)
  {
    LessTotal(a, b);
    StrLessIrreflexive(a.serverId);
    if Less(b, a) && b.number == a.number {
      StrLessAsymmetric(b.serverId, a.serverId);
    }
  }

  lemma LessEqTransitive(a: ProposalNumber, b: ProposalNumber, c: ProposalNumber)
    requires LessEq(a, b) && LessEq(b, c)
    ensures LessEq(a, c)
  {
    if Less(a, b) && Less(b, c) {
      LessTransitive(a, b, c);
    }
  }

  /** The sentinel is below exactly the numbers whose round is at least -1. */
  lemma MinIsLeast(p: ProposalNumber)
    ensures LessEq(Min(), p) <==> p.number >= -1
  {
  }

  /** The docstring's example: (4, 'C') > (4, 'B') > (3, 'Z'). */
  lemma DocstringOrder()
    ensures Less(ProposalNumber(4, "B"), ProposalNumber(4, "C"))
    ensures Less(ProposalNumber(3, "Z"), ProposalNumber(4, "B"))
  {
  }
}
