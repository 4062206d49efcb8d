/**
 * The SQL text that `COMADB` builds (comadb.py, lines 121-199). Each query is
 * one `%`-format expression; the identifier is spliced into the text as it
 * is, with no escaping. To say what that splice means, the module also
 * models how SQL reads a single-quoted string literal.
 */
module Queries {
  import opened Wrappers

  /** `"SELECT %s from %s WHERE <column> = '%s';" % (idStr, tableStr, value)` */
  function SelectWhere(idStr: string, tableStr: string, column: string, value: string): string
  {
    WherePrefix(idStr, tableStr, column) + value + "';"
  }

  /** The text of a `SelectWhere` query up to and including the opening quote. */
  function WherePrefix(idStr: string, tableStr: string, column: string): string
  {
    "SELECT " + idStr + " from " + tableStr + " WHERE " + column + " = '"
  }

  /** `"SELECT %s, %s from %s ORDER BY %s;" % (idStr, colStr, tableStr, orderStr)` */
  function SelectOrdered(idStr: string, colStr: string, tableStr: string, orderStr: string): string
  {
    "SELECT " + idStr + ", " + colStr + " from " + tableStr + " ORDER BY " + orderStr + ";"
  }

  /** The query of `GetObject`: every column of the object with the given LID. */
  function ObjectQuery(bundleLid: string): (q: string)
    ensures q == "SELECT * from objects WHERE pds4_lid = '" + bundleLid + "';"
  {
    SelectWhere("*", "objects", "pds4_lid", bundleLid)
  }

  /** The query of `GetObjectID`: the internal id of the object with the given LID. */
  function ObjectIdQuery(bundleLid: string): (q: string)
    ensures q == "SELECT objectid from objects WHERE pds4_lid = '" + bundleLid + "';"
  {
    SelectWhere("objectid", "objects", "pds4_lid", bundleLid)
  }

  /** The query of `GetInstrumentID`: the id of the instrument with the given acronym. */
  function InstrumentIdQuery(collectionLid: string): (q: string)
    ensures q == "SELECT instrumentid from instruments WHERE acronym = '" + collectionLid + "';"
  {
    assert "SELECT " + "instrumentid" + " from " + "instruments" == "SELECT instrumentid from instruments";
    assert "SELECT instrumentid from instruments" + " WHERE " + "acronym" + " = '"
        == "SELECT instrumentid from instruments WHERE acronym = '";
    SelectWhere("instrumentid", "instruments", "acronym", collectionLid)
  }

  /** The columns `ListObjects` projects after `objectid`, as one string. */
  const ObjectListColumns := "defaultobjectname, sbn_targetname, pds4_lid, objecttype_jpl, objecttype_coma"

  /** The query of `ListObjects`: `objectid` and the five columns above, for
      every object, ordered by display name. */
  function ListObjectsQuery(): (q: string)
    ensures q == "SELECT objectid, " + ObjectListColumns + " from objects ORDER BY defaultobjectname;"
  {
    ListObjectsShape(ObjectListColumns);
    SelectOrdered("objectid", ObjectListColumns, "objects", "defaultobjectname")
  }

  lemma ListObjectsShape(colStr: string)
    ensures SelectOrdered("objectid", colStr, "objects", "defaultobjectname")
         == "SELECT objectid, " + colStr + " from objects ORDER BY defaultobjectname;"
  {
    assert "SELECT " + "objectid" + ", " == "SELECT objectid, ";
    assert " from " + "objects" + " ORDER BY " + "defaultobjectname" + ";" == " from objects ORDER BY defaultobjectname;";
  }

  /** How SQL reads the body of a single-quoted literal, starting just after
      the opening quote: two quotes in a row stand for one quote, a lone quote
      ends the literal. Gives the literal's value and the text after the
      closing quote, or None when the literal is never closed. */
  function ReadLiteral(s: string): Option<(string, string)>
    decreases |s|
  {
    if s == [] then None
    else if s[0] != '\'' then Prepend(s[0], ReadLiteral(s[1..]))
    else if |s| > 1 && s[1] == '\'' then Prepend('\'', ReadLiteral(s[2..]))
    else Some(([], s[1..]))
  }

  /** One more character at the front of a literal's value. */
  function Prepend(c: char, r: Option<(string, string)>): Option<(string, string)>
  {
    if r.None? then None else Some(([c] + r.value.0, r.value.1))
  }

  /** The body of a literal whose value is `v`: every quote doubled. */
  function Escape(v: string): string
  {
    if v == [] then []
    else (if v[0] == '\'' then "''" else [v[0]]) + Escape(v[1..])
  }

  /** Escaping changes exactly the strings that hold a quote, and makes them
      longer. */
  lemma {:induction false} EscapeChanges(v: string)
    ensures '\'' !in v ==> Escape(v) == v
    ensures '\'' in v ==> |Escape(v)| > |v|
    ensures |Escape(v)| >= |v|
  {
    if v != [] {
      EscapeChanges(v[1..]);
      assert v == [v[0]] + v[1..];
    }
  }

  lemma ReadPlain(c: char, t: string)
    requires c != '\''
    ensures ReadLiteral([c] + t) == Prepend(c, ReadLiteral(t))
  {
    assert ([c] + t)[1..] == t;
  }

  lemma ReadDoubled(t: string)
    ensures ReadLiteral(['\'', '\''] + t) == Prepend('\'', ReadLiteral(t))
  {
    assert (['\'', '\''] + t)[2..] == t;
  }

  lemma ReadClosing(rest: string)
    requires rest == [] || rest[0] != '\''
    ensures ReadLiteral(['\''] + rest) == Some(([], rest))
  {
    assert (['\''] + rest)[1..] == rest;
  }

  lemma EscapeCons(c: char, t: string)
    ensures Escape([c] + t) == (if c == '\'' then ['\'', '\''] else [c]) + Escape(t)
  {
    assert ([c] + t)[1..] == t;
  }

  /** Reading an escaped body back gives its value, provided the text after
      the closing quote does not start with another quote. */
  lemma {:induction false} ReadEscaped(v: string, rest: string)
    requires rest == [] || rest[0] != '\''
    ensures ReadLiteral(Escape(v) + "'" + rest) == Some((v, rest))
  {
    if v == [] {
      assert Escape(v) + "'" + rest == ['\''] + rest;
      ReadClosing(rest);
    } else {
      var t := Escape(v[1..]) + "'" + rest;
      ReadEscaped(v[1..], rest);
      assert v == [v[0]] + v[1..];
      EscapeCons(v[0], v[1..]);
      if v[0] == '\'' {
        assert Escape(v) + "'" + rest == ['\'', '\''] + t;
        ReadDoubled(t);
      } else {
        assert Escape(v) + "'" + rest == [v[0]] + t;
        ReadPlain(v[0], t);
      }
    }
  }

  /** Whatever literal is read, the text was its escaped value, a closing
      quote and the rest. */
  lemma {:induction false} ReadLiteralSound(s: string, v: string, rest: string)
    requires ReadLiteral(s) == Some((v, rest))
    ensures s == Escape(v) + "'" + rest
    decreases |s|
  {
    if s[0] == '\'' && |s| > 1 && s[1] == '\'' {
      assert s == ['\'', '\''] + s[2..];
      ReadDoubled(s[2..]);
      var p := ReadLiteral(s[2..]).value;
      ReadLiteralSound(s[2..], p.0, p.1);
      EscapeCons('\'', p.0);
    } else if s[0] == '\'' {
      assert s == ['\''] + s[1..];
    } else {
      assert s == [s[0]] + s[1..];
      ReadPlain(s[0], s[1..]);
      var p := ReadLiteral(s[1..]).value;
      ReadLiteralSound(s[1..], p.0, p.1);
      EscapeCons(s[0], p.0);
    }
  }

  /** The identifier of a `WHERE ... = '...'` query is spliced in verbatim
      right after the opening quote, and the database reads it back as the
      literal's value exactly when it holds no quote character: a quote in
      the identifier changes what the statement says. */
  lemma {:induction false} SelectWhereLiteral(idStr: string, tableStr: string, column: string, value: string)
    ensures |WherePrefix(idStr, tableStr, column)| <= |SelectWhere(idStr, tableStr, column, value)|
    ensures SelectWhere(idStr, tableStr, column, value)[|WherePrefix(idStr, tableStr, column)|..] == value + "';"
    ensures ReadLiteral(value + "';") == Some((value, ";")) <==> '\'' !in value
  {
    var p := WherePrefix(idStr, tableStr, column);
    assert SelectWhere(idStr, tableStr, column, value) == p + (value + "';");
    EscapeChanges(value);
    if '\'' !in value {
      ReadEscaped(value, ";");
      assert Escape(value) + "'" + ";" == value + "';";
    } else if ReadLiteral(value + "';") == Some((value, ";")) {
      ReadLiteralSound(value + "';", value, ";");
    }
  }
}
