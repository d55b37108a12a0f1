/** How texts compare, and clock times written as texts (src/store/mod.rs, `matches_time_range`). */
module ClockTexts {
  import opened Wrappers
  import opened Text
  import opened AdminTables

  // ---------------------------------------------------------------- the order of texts

  /** The texts first differ at `k`, or the first one ends there. */
  ghost predicate DiffersAt(a: string, b: string, k: nat) {
    && k <= |a| && k < |b| && a[..k] == b[..k]
    && (k == |a| || a[k] < b[k])
  }

  /** Strictly before in the order of texts. */
  ghost predicate Before(a: string, b: string) {
    exists k: nat :: DiffersAt(a, b, k)
  }

  lemma DiffersAtCons(a: string, b: string, k: nat)
    requires a != "" && b != "" && a[0] == b[0]
    ensures DiffersAt(a, b, k + 1) <==> DiffersAt(a[1..], b[1..], k)
  {
    if k < |a| && k < |b| {
      assert a[..k + 1] == [a[0]] + a[1..][..k] && b[..k + 1] == [b[0]] + b[1..][..k];
      if a[..k + 1] == b[..k + 1] {
        assert a[1..][..k] == a[..k + 1][1..] && b[1..][..k] == b[..k + 1][1..];
      }
    }
  }

  lemma BeforeCons(a: string, b: string)
    requires a != "" && b != ""
    ensures Before(a, b) <==> a[0] < b[0] || (a[0] == b[0] && Before(a[1..], b[1..]))
  {
    if a[0] < b[0] {
      assert DiffersAt(a, b, 0);
    } else if a[0] == b[0] {
      if Before(a[1..], b[1..]) {
        var k: nat :| DiffersAt(a[1..], b[1..], k);
        DiffersAtCons(a, b, k);
      }
      if Before(a, b) {
        var k: nat :| DiffersAt(a, b, k);
        assert k > 0;
        DiffersAtCons(a, b, k - 1);
      }
    }
  }

  /** The comparison of the code is the order of texts: before or equal. */
  lemma {:induction false} AtMostIsTextOrder(a: string, b: string)
    ensures AtMost(a, b) <==> a == b || Before(a, b)
    decreases |a|
  {
    if a == "" {
      if b != "" {
        assert DiffersAt(a, b, 0);
      }
    } else if b == "" {
    } else {
      BeforeCons(a, b);
      AtMostIsTextOrder(a[1..], b[1..]);
      assert a == [a[0]] + a[1..] && b == [b[0]] + b[1..];
    }
  }

  /** The order is total: of two different texts exactly one is before the other. */
  lemma {:induction false} TextOrderIsTotal(a: string, b: string)
    ensures AtMost(a, b) || AtMost(b, a)
    ensures AtMost(a, b) && AtMost(b, a) ==> a == b
    decreases |a|
  {
    if a != "" && b != "" && a[0] == b[0] {
      TextOrderIsTotal(a[1..], b[1..]);
      assert a == [a[0]] + a[1..] && b == [b[0]] + b[1..];
    }
  }

  // ---------------------------------------------------------------- clock times

  function Digit(d: nat): char
    requires d < 10
  {
    ('0' as int + d) as char
  }

  /** "HH:MM" for a minute of the day. */
  function Clock(t: nat): string
    requires t < 1440
  {
    [Digit(t / 60 / 10), Digit(t / 60 % 10), ':', Digit(t % 60 / 10), Digit(t % 60 % 10)]
  }

  function Five(a: char, b: char, c: char, d: char, e: char): string {
    [a, b, c, d, e]
  }

  lemma AtMostOfFive(a: char, b: char, c: char, d: char, a': char, b': char, c': char, d': char)
    ensures AtMost(Five(a, b, ':', c, d), Five(a', b', ':', c', d')) <==>
            a < a' || (a == a' && (b < b' || (b == b' && (c < c' || (c == c' && d <= d')))))
  {
    var s, t := Five(a, b, ':', c, d), Five(a', b', ':', c', d');
    assert s[1..] == [b, ':', c, d] && s[1..][1..] == [':', c, d] && s[1..][1..][1..] == [c, d];
    assert t[1..] == [b', ':', c', d'] && t[1..][1..] == [':', c', d'] && t[1..][1..][1..] == [c', d'];
    assert s[1..][1..][1..][1..] == [d] && t[1..][1..][1..][1..] == [d'];
    assert [d][1..] == [] && [d'][1..] == [];
    assert AtMost([d], [d']) <==> d <= d';
    assert AtMost([c, d], [c', d']) <==> c < c' || (c == c' && AtMost([d], [d']));
    assert AtMost([':', c, d], [':', c', d']) <==> AtMost([c, d], [c', d']);
    assert AtMost([b, ':', c, d], [b', ':', c', d']) <==>
           b < b' || (b == b' && AtMost([':', c, d], [':', c', d']));
  }

  lemma TensAndOnes(x: nat, y: nat)
    ensures x <= y <==> x / 10 < y / 10 || (x / 10 == y / 10 && x % 10 <= y % 10)
    ensures x == y <==> x / 10 == y / 10 && x % 10 == y % 10
  {
  }

  lemma HoursAndMinutes(t: nat, u: nat)
    ensures t <= u <==> t / 60 < u / 60 || (t / 60 == u / 60 && t % 60 <= u % 60)
  {
  }

  lemma DigitsCompare(d: nat, e: nat)
    requires d < 10 && e < 10
    ensures Digit(d) < Digit(e) <==> d < e
    ensures Digit(d) == Digit(e) <==> d == e
  {
  }

  /** Clock times compare as texts like their minutes. */
  lemma ClockOrder(t: nat, u: nat)
    requires t < 1440 && u < 1440
    ensures AtMost(Clock(t), Clock(u)) <==> t <= u
  {
    var h, m, h', m' := t / 60, t % 60, u / 60, u % 60;
    AtMostOfFive(Digit(h / 10), Digit(h % 10), Digit(m / 10), Digit(m % 10),
                 Digit(h' / 10), Digit(h' % 10), Digit(m' / 10), Digit(m' % 10));
    assert Clock(t) == Five(Digit(h / 10), Digit(h % 10), ':', Digit(m / 10), Digit(m % 10));
    assert Clock(u) == Five(Digit(h' / 10), Digit(h' % 10), ':', Digit(m' / 10), Digit(m' % 10));
    DigitsCompare(h / 10, h' / 10);
    DigitsCompare(h % 10, h' % 10);
    DigitsCompare(m / 10, m' / 10);
    DigitsCompare(m % 10, m' % 10);
    TensAndOnes(h, h');
    TensAndOnes(m, m');
    HoursAndMinutes(t, u);
  }
}
