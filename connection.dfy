/** The output-format toggle of `Connection` (akiban/psycopg2.py): the
    connection remembers whether the server was last told to send nested JSON
    results, and tells it again only when a cursor asks for the other mode. */
module Connections {

  /** The two statements `_set_output_format` executes. */
  const NestedFormat := "set OutputFormat='json_with_meta_data'"
  const TableFormat := "set OutputFormat='table'"

  /** The statement that switches the server to the given mode. */
  function Statement(nested: bool): (r: string)
    ensures (r == NestedFormat) == nested && (r == TableFormat) == !nested
  {
    if nested then NestedFormat else TableFormat
  }

  /** The mode after a series of requests made from mode `start`: every
      request ends in the mode it asked for. */
  function Mode(start: bool, reqs: seq<bool>): (r: bool)
    ensures reqs == [] ==> r == start
    ensures reqs != [] ==> r == reqs[|reqs| - 1] && r in reqs
  {
    if reqs == [] then start else reqs[|reqs| - 1]
  }

  /** The modes a statement was issued for, in order, over that series. */
  function Issued(start: bool, reqs: seq<bool>): (r: seq<bool>)
    ensures forall i :: 0 <= i < |r| ==> r[i] in reqs
    decreases |reqs|
  {
    if reqs == [] then []
    else
      var before := Mode(start, reqs[..|reqs| - 1]);
      var wanted := reqs[|reqs| - 1];
      Issued(start, reqs[..|reqs| - 1]) + (if wanted != before then [wanted] else [])
  }

  /** At most one statement per request; each statement is a real change of
      mode: the first leaves `start`, each later one undoes the previous one,
      and the last one issued is the current mode. */
  lemma {:induction false} IssuedAlternates(start: bool, reqs: seq<bool>)
    ensures var out := Issued(start, reqs);
      && |out| <= |reqs|
      && (out != [] ==> out[0] != start && out[|out| - 1] == Mode(start, reqs))
      && (out == [] ==> Mode(start, reqs) == start)
      && forall i :: 0 <= i < |out| - 1 ==> out[i] != out[i + 1]
    decreases |reqs|
  {
    if reqs != [] {
      var init := reqs[..|reqs| - 1];
      IssuedAlternates(start, init);
      var before := Issued(start, init);
      var out := Issued(start, reqs);
      if reqs[|reqs| - 1] != Mode(start, init) {
        assert out == before + [reqs[|reqs| - 1]];
        assert forall i :: 0 <= i < |before| ==> out[i] == before[i];
      } else {
        assert out == before;
      }
    }
  }

  /** Repeating a request never issues a second statement. */
  lemma RepeatIsSilent(start: bool, reqs: seq<bool>, wanted: bool)
    ensures Issued(start, reqs + [wanted, wanted]) == Issued(start, reqs + [wanted])
  {
    var once := reqs + [wanted];
    var twice := reqs + [wanted, wanted];
    assert twice[..|twice| - 1] == once;
  }

  /** The statements that switch to each of `modes`, in order. */
  function Statements(modes: seq<bool>): (r: seq<string>)
    ensures |r| == |modes| && forall i :: 0 <= i < |modes| ==> r[i] == Statement(modes[i])
  {
    if modes == [] then [] else Statements(modes[..|modes| - 1]) + [Statement(modes[|modes| - 1])]
  }

  class Connection {
    /** `_nested`: whether the server currently sends nested JSON results. */
    var nested: bool
    /** The statements executed on the connection's cursors, oldest first. */
    var statements: seq<string>

    /** `Connection(dsn)`: a new connection is in table mode. */
    constructor ()
      ensures !nested && statements == []
    {
      nested := false;
      statements := [];
    }

    /** `_set_output_format(cursor, nested)` */
    method SetOutputFormat(wanted: bool)
      modifies this
      ensures nested == wanted
      ensures statements == old(statements) + (if wanted != old(nested) then [Statement(wanted)] else [])
    {
      if wanted != nested {
        statements := statements + [Statement(wanted)];
        nested := wanted;
      }
    }
  }

  /** One more request appends its statement, when it changes the mode. */
  lemma IssuedStep(start: bool, reqs: seq<bool>, i: nat)
    requires i < |reqs|
    ensures Statements(Issued(start, reqs[..i + 1]))
         == Statements(Issued(start, reqs[..i]))
            + (if reqs[i] != Mode(start, reqs[..i]) then [Statement(reqs[i])] else [])
  {
    assert reqs[..i + 1][..i] == reqs[..i];
    var issued := Issued(start, reqs[..i]);
    if reqs[i] != Mode(start, reqs[..i]) {
      assert (issued + [reqs[i]])[..|issued|] == issued;
    }
  }

  /** The output-format side of successive `cursor(nested)` calls on one
      connection: each call goes through `_set_output_format`. */
  method OpenCursors(c: Connection, reqs: seq<bool>)
    modifies c
    ensures c.nested == Mode(old(c.nested), reqs)
    ensures c.statements == old(c.statements) + Statements(Issued(old(c.nested), reqs))
  {
    ghost var start, log := c.nested, c.statements;
    var i := 0;
    while i < |reqs|
      invariant 0 <= i <= |reqs|
      invariant c.nested == Mode(start, reqs[..i])
      invariant c.statements == log + Statements(Issued(start, reqs[..i]))
    {
      IssuedStep(start, reqs, i);
      ghost var before := Statements(Issued(start, reqs[..i]));
      ghost var after := Statements(Issued(start, reqs[..i + 1]));
      ghost var changed := reqs[i] != c.nested;
      c.SetOutputFormat(reqs[i]);
      if changed {
        assert after == before + [Statement(reqs[i])];
        assert log + after == (log + before) + [Statement(reqs[i])];
      } else {
        assert after == before;
      }
      i := i + 1;
    }
    assert reqs[..i] == reqs;
  }
}
