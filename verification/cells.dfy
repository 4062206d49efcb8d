/**
 * Cells of a fetched result set and the carriage-return cleaning that
 * `COMADB.GetResults` applies to them (comadb.py, lines 70-85).
 */
module Cells {

  /** A driver value that is not a Python `str`. Floating-point and date
      values are not interpreted: they are kept as an opaque token that is
      only compared for equality. */
  datatype Scalar = Null | Int(n: int) | Bool(b: bool) | Opaque(token: nat)

  /** One cell of a row: either a string, which is cleaned, or anything else,
      which passes through untouched. */
  datatype Cell = Str(s: string) | Other(v: Scalar)

  type Row = seq<Cell>

  /** `s.replace('\r', "")`: every carriage return removed, every other
      character kept in order. */
  function StripCR(s: string): (r: string)
    ensures '\r' !in r
    ensures |r| <= |s|
  {
    if s == [] then []
    else (if s[0] == '\r' then [] else [s[0]]) + StripCR(s[1..])
  }

  /** Removing carriage returns works piece by piece: it keeps the order of
      what it keeps. */
  lemma {:induction false} StripCRAppend(a: string, b: string)
    ensures StripCR(a + b) == StripCR(a) + StripCR(b)
  {
    if a == [] {
      assert a + b == b;
    } else {
      assert (a + b)[0] == a[0];
      assert (a + b)[1..] == a[1..] + b;
      StripCRAppend(a[1..], b);
    }
  }

  /** A string without carriage returns is left as it is. */
  lemma {:induction false} StripCRFixesClean(s: string)
    requires '\r' !in s
    ensures StripCR(s) == s
  {
    if s != [] {
      assert s == [s[0]] + s[1..];
      StripCRFixesClean(s[1..]);
    }
  }

  /** Cleaning a cleaned string changes nothing. */
  lemma {:induction false} StripCRIdempotent(s: string)
    ensures StripCR(StripCR(s)) == StripCR(s)
  {
    StripCRFixesClean(StripCR(s));
  }

  /** Exactly the carriage returns go: every other character keeps its
      number of occurrences, and the length drops by the number of `'\r'`. */
  lemma {:induction false} StripCRCounts(s: string)
    ensures forall c :: c != '\r' ==> multiset(StripCR(s))[c] == multiset(s)[c]
    ensures |StripCR(s)| == |s| - multiset(s)['\r']
  {
    if s != [] {
      StripCRCounts(s[1..]);
      assert s == [s[0]] + s[1..];
      assert multiset(s) == multiset([s[0]]) + multiset(s[1..]);
      var head := if s[0] == '\r' then [] else [s[0]];
      assert multiset(StripCR(s)) == multiset(head) + multiset(StripCR(s[1..]));
    }
  }

  /** The treatment of one cell inside the loop of `GetResults`. */
  function CleanCell(c: Cell): (r: Cell)
    ensures r.Str? <==> c.Str?
    ensures r.Str? ==> '\r' !in r.s
    ensures c.Other? ==> r == c
  {
    match c
    case Str(s) => Str(StripCR(s))
    case Other(_) => c
  }

  function CleanRow(row: Row): (r: Row)
    ensures |r| == |row|
  {
    seq(|row|, j requires 0 <= j < |row| => CleanCell(row[j]))
  }

  /** No string cell of the rows holds a carriage return. */
  predicate CarriageFree(rows: seq<Row>)
  {
    forall i, j :: 0 <= i < |rows| && 0 <= j < |rows[i]| && rows[i][j].Str? ==> '\r' !in rows[i][j].s
  }

  /** What `GetResults` makes of the fetched rows: the same number of rows,
      each as long as before; no string cell keeps a carriage return;
      strings lose exactly their carriage returns; every other cell is copied
      unchanged at the same position. */
  function CleanRows(rows: seq<Row>): (r: seq<Row>)
    ensures |r| == |rows|
    ensures forall i :: 0 <= i < |rows| ==> |r[i]| == |rows[i]|
    ensures CarriageFree(r)
    ensures forall i, j :: 0 <= i < |rows| && 0 <= j < |rows[i]| && rows[i][j].Other? ==> r[i][j] == rows[i][j]
    ensures forall i, j :: 0 <= i < |rows| && 0 <= j < |rows[i]| && rows[i][j].Str? ==>
              r[i][j] == Str(StripCR(rows[i][j].s))
  {
    seq(|rows|, i requires 0 <= i < |rows| => CleanRow(rows[i]))
  }

  /** Rows that are already clean come back unchanged. */
  lemma {:induction false} CleanRowsFixesClean(rows: seq<Row>)
    requires CarriageFree(rows)
    ensures CleanRows(rows) == rows
  {
    var r := CleanRows(rows);
    forall i | 0 <= i < |rows|
      ensures r[i] == rows[i]
    {
      forall j | 0 <= j < |rows[i]|
        ensures r[i][j] == rows[i][j]
      {
        if rows[i][j].Str? {
          StripCRFixesClean(rows[i][j].s);
        }
      }
    }
  }

  /** Cleaning is idempotent: cleaning an already cleaned result set changes
      nothing. */
  lemma {:induction false} CleanRowsIdempotent(rows: seq<Row>)
    ensures CleanRows(CleanRows(rows)) == CleanRows(rows)
  {
    CleanRowsFixesClean(CleanRows(rows));
  }
}
