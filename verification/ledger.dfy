/** Double-entry journal entries as both engines emit them: a number, a date,
    a description, and lists of debit and credit lines. */
module Ledger {
  import opened Contracts

  datatype Line = Line(account: string, amount: real)

  datatype Entry<D> = Entry(
    entryNum: nat,
    date: Date,
    description: D,
    debits: seq<Line>,
    credits: seq<Line>)

  /** The sum of the amounts of some lines. */
  function Total(lines: seq<Line>): real
  {
    if |lines| == 0 then 0.0 else Total(lines[..|lines| - 1]) + lines[|lines| - 1].amount
  }

  /** An entry whose debits and credits add up to the same amount. */
  predicate Balanced<D>(e: Entry<D>)
  {
    Total(e.debits) == Total(e.credits)
  }

  /** An entry with one debit line and one credit line for the same amount. */
  predicate SimplePosting<D>(e: Entry<D>)
  {
    |e.debits| == 1 && |e.credits| == 1 && e.debits[0].amount == e.credits[0].amount
  }

  /** Entries numbered `first`, `first + 1`, ... by position, without gaps. */
  predicate NumberedFrom<D>(entries: seq<Entry<D>>, first: nat)
  {
    forall i :: 0 <= i < |entries| ==> entries[i].entryNum == first + i
  }

  /** The posting that moves `amount` from account `debit` to account `credit`. */
  function Posting<D>(num: nat, date: Date, description: D, debit: string, credit: string, amount: real): (e: Entry<D>)
    ensures SimplePosting(e) && Balanced(e)
    ensures e.entryNum == num && e.date == date && e.debits[0].amount == amount
  {
    var e := Entry(num, date, description, [Line(debit, amount)], [Line(credit, amount)]);
    assert [Line(debit, amount)][..0] == [];
    e
  }

  /** The amounts of the lines on `account`, in order. */
  function LinesOn(lines: seq<Line>, account: string): seq<real>
  {
    if |lines| == 0 then []
    else LinesOn(lines[..|lines| - 1], account)
         + (if lines[|lines| - 1].account == account then [lines[|lines| - 1].amount] else [])
  }

  lemma LinesOnAppend(lines: seq<Line>, l: Line, account: string)
    ensures LinesOn(lines + [l], account)
         == LinesOn(lines, account) + (if l.account == account then [l.amount] else [])
  {
    assert (lines + [l])[..|lines|] == lines;
  }

  /** The amounts credited to `account` by some entries, in entry order. */
  function Credited<D>(entries: seq<Entry<D>>, account: string): seq<real>
  {
    if |entries| == 0 then []
    else Credited(entries[..|entries| - 1], account) + LinesOn(entries[|entries| - 1].credits, account)
  }

  lemma CreditedSingle<D>(e: Entry<D>, account: string)
    ensures Credited([e], account) == LinesOn(e.credits, account)
  {
    assert [e][..0] == [];
  }

  /** Crediting is read entry by entry, so two runs of entries credit what
      each credits, one after the other. */
  lemma {:induction false} CreditedAppend<D>(a: seq<Entry<D>>, b: seq<Entry<D>>, account: string)
    ensures Credited(a + b, account) == Credited(a, account) + Credited(b, account)
  {
    if |b| == 0 {
      assert a + b == a;
    } else {
      var k := |b| - 1;
      var ab := a + b;
      var last := LinesOn(b[k].credits, account);
      assert Credited(ab, account) == Credited(a + b[..k], account) + last by {
        assert ab[..|ab| - 1] == a + b[..k];
        assert ab[|ab| - 1] == b[k];
      }
      CreditedAppend(a, b[..k], account);
      ConcatAssociates(Credited(a, account), Credited(b[..k], account), last);
    }
  }

  lemma ConcatAssociates(x: seq<real>, y: seq<real>, z: seq<real>)
    ensures (x + y) + z == x + (y + z)
  {
  }

  lemma TotalAppend(lines: seq<Line>, l: Line)
    ensures Total(lines + [l]) == Total(lines) + l.amount
  {
    assert (lines + [l])[..|lines|] == lines;
  }
}
