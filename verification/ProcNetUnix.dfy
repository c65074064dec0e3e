/**
 The reader of /proc/net/unix (pkg/resources/server.go): which sockfs inodes the
 kernel lists as bound to a pathname, and whether one of them is the only one.

 The kernel's table is modelled by Row and rendered to text; the reader is the
 source's loop over the lines of that text.
 */
module ProcNetUnix {
  import opened Wrappers
  import opened Text

  // Column indexes in a row: Num RefCount Protocol Flags Type St Inode Path.
  const INODE_FIELD := 6
  const PATH_FIELD := 7

  // ---------- the reader ----------

  /** What one line contributes to the inodes of path. */
  function LineInodes(line: string, path: string): seq<nat> {
    var fields := Fields(line);
    if |fields| <= PATH_FIELD || Join(fields[PATH_FIELD..]) != path then []
    else
      var ino := ParseUint(fields[INODE_FIELD]);
      if ino.None? then [] else [ino.value]
  }

  function LinesInodes(lines: seq<string>, path: string): seq<nat> {
    if lines == [] then [] else LineInodes(lines[0], path) + LinesInodes(lines[1..], path)
  }

  /** The inodes of path in the text of the table, whose first line is a header. */
  function TableInodes(text: string, path: string): seq<nat> {
    var lines := ScanLines(text);
    if lines == [] then [] else LinesInodes(lines[1..], path)
  }

  lemma {:induction false} LinesInodesSnoc(lines: seq<string>, line: string, path: string)
    ensures LinesInodes(lines + [line], path) == LinesInodes(lines, path) + LineInodes(line, path)
  {
    hide LineInodes;
    if lines == [] {
      assert ([] + [line])[1..] == [];
      assert lines + [line] == [line];
    } else {
      LinesInodesSnoc(lines[1..], line, path);
      assert (lines + [line])[1..] == lines[1..] + [line];
    }
  }

  /** The source's loop. */
  method UnixSocketInodesForPath(text: string, path: string) returns (inos: seq<nat>)
    ensures inos == TableInodes(text, path)
  {
    inos := [];
    var lines := ScanLines(text);
    if lines == [] {
      return;
    }
    var n := 1;
    assert lines[1..1] == [];
    while n < |lines|
      invariant 1 <= n <= |lines|
      invariant inos == LinesInodes(lines[1..n], path)
    {
      LinesInodesSnoc(lines[1..n], lines[n], path);
      assert lines[1..n] + [lines[n]] == lines[1..n + 1];
      var fields := Fields(lines[n]);
      n := n + 1;
      if |fields| <= PATH_FIELD {
        continue;
      }
      var p := fields[PATH_FIELD];
      if |fields| > PATH_FIELD + 1 {
        p := Join(fields[PATH_FIELD..]);
      }
      assert p == Join(fields[PATH_FIELD..]);
      if p != path {
        continue;
      }
      var ino := ParseUint(fields[INODE_FIELD]);
      if ino.None? {
        continue;
      }
      inos := inos + [ino.value];
    }
    assert lines[1..|lines|] == lines[1..];
  }

  /** file is None when /proc/net/unix cannot be opened; the answer is then no. */
  method SocketPathOwnedSolelyBy(file: Option<string>, path: string, ino: nat) returns (sole: bool)
    ensures sole <==> file.Some? && TableInodes(file.value, path) == [ino]
  {
    if file.None? {
      return false;
    }
    var inos := UnixSocketInodesForPath(file.value, path);
    return |inos| == 1 && inos[0] == ino;
  }

  // ---------- the kernel's table ----------

  /** The columns of a row before the inode. */
  datatype Lead = Lead(num: string, refCount: string, protocol: string, flags: string, kind: string, st: string) {
    function Texts(): seq<string> {
      [num, refCount, protocol, flags, kind, st]
    }
  }

  /**
   A row of the table.
   Bound: a socket with a pathname; the inode is printed right-aligned, so pad extra spaces precede it.
   BadInode: a row whose inode column is not a uint64.
   Short: a row without a path column, as for an unnamed socket.
   */
  datatype Row =
    | Bound(lead: Lead, pad: nat, ino: nat, path: string)
    | BadInode(lead: Lead, pad: nat, text: string, path: string)
    | Short(fields: seq<string>)
  {
    ghost predicate Valid() {
      match this
      case Bound(lead, _, ino, path) => IsLead(lead.Texts()) && ino <= MAX_UINT64 && '\n' !in path
      case BadInode(lead, _, text, path) =>
        IsLead(lead.Texts()) && IsToken(text) && ParseUint(text) == None && '\n' !in path
      case Short(fields) => |fields| <= 7 && forall f :: f in fields ==> IsToken(f)
    }

    function Line(): string {
      match this
      case Bound(lead, pad, ino, path) => Columns(lead.Texts(), pad, Itoa(ino), path)
      case BadInode(lead, pad, text, path) => Columns(lead.Texts(), pad, text, path)
      case Short(fields) => Join(fields)
    }
  }

  /** Six columns, none of them empty or with white space. */
  ghost predicate IsLead(lead: seq<string>) {
    |lead| == 6 && forall f :: f in lead ==> IsToken(f)
  }

  function Columns(lead: seq<string>, pad: nat, ino: string, path: string): string {
    Join(lead) + " " + (Spaces(pad) + (ino + " " + path))
  }

  /** The text of the table: a header line and one line a row. */
  function Render(header: string, rows: seq<Row>): string {
    header + "\n" + RenderRows(rows)
  }

  function RenderRows(rows: seq<Row>): string {
    if rows == [] then "" else rows[0].Line() + "\n" + RenderRows(rows[1..])
  }

  /** The inodes of the sockets whose pathname satisfies the test, in table order. */
  function BoundInodes(rows: seq<Row>, named: string -> bool): seq<nat> {
    if rows == [] then []
    else
      (if rows[0].Bound? && named(rows[0].path) then [rows[0].ino] else [])
      + BoundInodes(rows[1..], named)
  }

  ghost predicate ValidRows(rows: seq<Row>) {
    forall r :: r in rows ==> r.Valid()
  }

  // ---------- rendering, then reading ----------

  lemma Reassociate<T>(a: seq<T>, b: seq<T>, c: seq<T>, d: seq<T>)
    ensures a + b + c + d == a + (b + c + d)
  {
  }

  lemma {:induction false} FieldsOfTokensThen(tokens: seq<string>, rest: string)
    requires tokens != [] && forall t :: t in tokens ==> IsToken(t)
    ensures Fields(Join(tokens) + " " + rest) == tokens + Fields(rest)
  {
    hide Fields, IsSpace;
    if |tokens| == 1 {
      FieldsOfTokenThen(tokens[0], ' ', rest);
    } else {
      var first, others := tokens[0], tokens[1..];
      FieldsOfTokensThen(others, rest);
      FieldsOfTokenThen(first, ' ', Join(others) + " " + rest);
      assert Join(tokens) == first + " " + Join(others);
      hide Join;
      Reassociate(first + " ", Join(others), " ", rest);
      assert [first] + others == tokens;
      Reassociate([], [first], others, Fields(rest));
    }
  }

  lemma FieldsOfColumns(lead: seq<string>, pad: nat, ino: string, path: string)
    requires IsLead(lead) && IsToken(ino)
    ensures Fields(Columns(lead, pad, ino, path)) == lead + [ino] + Fields(path)
  {
    FieldsOfTokensThen(lead, Spaces(pad) + (ino + " " + path));
    FieldsSkipSpaces(pad, ino + " " + path);
    FieldsOfTokenThen(ino, ' ', path);
  }

  lemma {:induction false} TokenHasNoLineFeed(tokens: seq<string>)
    requires forall t :: t in tokens ==> IsToken(t)
    ensures '\n' !in Join(tokens)
  {
    if |tokens| == 1 {
      assert IsToken(tokens[0]);
    } else if |tokens| > 1 {
      TokenHasNoLineFeed(tokens[1..]);
      assert IsToken(tokens[0]);
    }
  }

  lemma {:induction false} SpacesHaveNoLineFeed(n: nat)
    ensures '\n' !in Spaces(n)
  {
    if n > 0 {
      SpacesHaveNoLineFeed(n - 1);
    }
  }

  lemma ColumnsHaveNoLineFeed(lead: seq<string>, pad: nat, ino: string, path: string)
    requires IsLead(lead) && IsToken(ino) && '\n' !in path
    ensures '\n' !in Columns(lead, pad, ino, path)
  {
    TokenHasNoLineFeed(lead);
    TokenHasNoLineFeed([ino]);
    SpacesHaveNoLineFeed(pad);
  }

  lemma RowIsOneLine(row: Row)
    requires row.Valid()
    ensures '\n' !in row.Line()
  {
    match row
    case Bound(lead, pad, ino, path) =>
      ItoaHasNoSpace(ino);
      ColumnsHaveNoLineFeed(lead.Texts(), pad, Itoa(ino), path);
    case BadInode(lead, pad, text, path) =>
      ColumnsHaveNoLineFeed(lead.Texts(), pad, text, path);
    case Short(fields) =>
      TokenHasNoLineFeed(fields);
  }

  lemma ColumnsInodes(lead: seq<string>, pad: nat, ino: string, path: string, target: string)
    requires IsLead(lead) && IsToken(ino) && target != ""
    ensures LineInodes(Columns(lead, pad, ino, path), target)
         == if Normalize(path) == target && ParseUint(ino).Some? then [ParseUint(ino).value] else []
  {
    FieldsOfColumns(lead, pad, ino, path);
    var fields := lead + [ino] + Fields(path);
    assert fields[INODE_FIELD] == ino;
    assert |fields| > PATH_FIELD ==> fields[PATH_FIELD..] == Fields(path);
  }

  lemma RowInodes(row: Row, target: string)
    requires row.Valid() && target != ""
    ensures LineInodes(row.Line(), target) == if row.Bound? && Normalize(row.path) == target then [row.ino] else []
  {
    match row
    case Bound(lead, pad, ino, path) =>
      ItoaHasNoSpace(ino);
      ParseUintOfItoa(ino);
      ColumnsInodes(lead.Texts(), pad, Itoa(ino), path, target);
    case BadInode(lead, pad, text, path) =>
      ColumnsInodes(lead.Texts(), pad, text, path, target);
    case Short(fields) =>
      FieldsOfJoin(fields);
  }

  lemma {:induction false} RowsInodes(rows: seq<Row>, target: string)
    requires ValidRows(rows) && target != ""
    ensures LinesInodes(ScanLines(RenderRows(rows)), target)
         == BoundInodes(rows, path => Normalize(path) == target)
  {
    if rows != [] {
      RowIsOneLine(rows[0]);
      RowInodes(rows[0], target);
      var line, rest := rows[0].Line(), RenderRows(rows[1..]);
      ScanLinesOfLineThen(line, rest);
      FieldsOfDropCR(line);
      var lines := [DropCR(line)] + ScanLines(rest);
      assert lines[1..] == ScanLines(rest);
      RowsInodes(rows[1..], target);
    }
  }

  /**
   Reading a rendered table, whatever its rows: the inodes of the sockets whose pathname collapses
   to the target when its white space is normalized.
   */
  lemma ReadRendered(header: string, rows: seq<Row>, target: string)
    requires '\n' !in header && ValidRows(rows) && target != ""
    ensures TableInodes(Render(header, rows), target) == BoundInodes(rows, path => Normalize(path) == target)
  {
    ScanLinesOfLineThen(header, RenderRows(rows));
    var lines := [DropCR(header)] + ScanLines(RenderRows(rows));
    assert lines[1..] == ScanLines(RenderRows(rows));
    RowsInodes(rows, target);
  }

  /** Two tests, one of which implies the other on the rows, pick the same inodes only if they agree. */
  lemma {:induction false} BoundInodesIff(rows: seq<Row>, p: string -> bool, q: string -> bool)
    requires forall r :: r in rows && r.Bound? && p(r.path) ==> q(r.path)
    ensures |BoundInodes(rows, p)| <= |BoundInodes(rows, q)|
    ensures |BoundInodes(rows, p)| == |BoundInodes(rows, q)| <==>
              forall r :: r in rows && r.Bound? ==> p(r.path) == q(r.path)
    ensures |BoundInodes(rows, p)| == |BoundInodes(rows, q)| ==> BoundInodes(rows, p) == BoundInodes(rows, q)
  {
    if rows != [] {
      BoundInodesIff(rows[1..], p, q);
      assert forall r :: r in rows <==> r == rows[0] || r in rows[1..];
    }
  }

  /**
   The round trip: the reader returns, in order, exactly the inodes of the target's well-formed rows if and
   only if no listed pathname is changed into or away from the target by collapsing its white space.
   */
  lemma RoundTripIff(header: string, rows: seq<Row>, target: string)
    requires '\n' !in header && ValidRows(rows) && target != ""
    ensures TableInodes(Render(header, rows), target) == BoundInodes(rows, path => path == target)
            <==> forall r :: r in rows && r.Bound? ==> (Normalize(r.path) == target <==> r.path == target)
  {
    var read := path => Normalize(path) == target;
    var named := path => path == target;
    ReadRendered(header, rows, target);
    BoundInodesIff(rows, read, read);
    if Regular(target) {
      RegularIsNormal(target);
      BoundInodesIff(rows, named, read);
    } else {
      forall r | r in rows && r.Bound?
        ensures !read(r.path)
      {
        if Fields(r.path) != [] {
          JoinIsRegular(Fields(r.path));
        }
      }
      BoundInodesIff(rows, read, named);
    }
    SamePicks(rows, read, path => Normalize(path) == target);
    SamePicks(rows, named, path => path == target);
  }

  lemma SamePicks(rows: seq<Row>, p: string -> bool, q: string -> bool)
    requires forall r :: r in rows && r.Bound? ==> p(r.path) == q(r.path)
    ensures BoundInodes(rows, p) == BoundInodes(rows, q)
  {
    BoundInodesIff(rows, p, q);
  }

  /**
   So it always holds when the target and the listed pathnames are non-empty, with only single interior
   spaces as white space, as the socket paths under the default directories are.
   */
  lemma RoundTrip(header: string, rows: seq<Row>, target: string)
    requires '\n' !in header && ValidRows(rows) && Regular(target)
    requires forall r :: r in rows && r.Bound? ==> Regular(r.path)
    ensures TableInodes(Render(header, rows), target) == BoundInodes(rows, path => path == target)
  {
    RoundTripIff(header, rows, target);
    forall r | r in rows && r.Bound?
      ensures Normalize(r.path) == r.path
    {
      RegularIsNormal(r.path);
    }
  }

  lemma {:induction false} BoundInodesMember(rows: seq<Row>, named: string -> bool, ino: nat)
    ensures ino in BoundInodes(rows, named) <==> exists r :: r in rows && r.Bound? && r.ino == ino && named(r.path)
  {
    if rows != [] {
      BoundInodesMember(rows[1..], named, ino);
      assert forall r :: r in rows <==> r == rows[0] || r in rows[1..];
    }
  }

  /**
   Who is listed for the target is read, whatever else the table has, if the target has only single interior
   spaces as white space; for any other target nobody is ever read, so that its owner would never remove it.
   */
  lemma ListedIsRead(header: string, rows: seq<Row>, target: string, ino: nat)
    requires '\n' !in header && ValidRows(rows) && target != ""
    ensures Regular(target) && (exists r :: r in rows && r.Bound? && r.ino == ino && r.path == target) ==>
              ino in TableInodes(Render(header, rows), target)
    ensures !Regular(target) ==> TableInodes(Render(header, rows), target) == []
  {
    var read := path => Normalize(path) == target;
    ReadRendered(header, rows, target);
    SamePicks(rows, read, path => Normalize(path) == target);
    BoundInodesMember(rows, read, ino);
    if Regular(target) {
      RegularIsNormal(target);
    } else if BoundInodes(rows, read) != [] {
      BoundInodesMember(rows, read, BoundInodes(rows, read)[0]);
      var r :| r in rows && r.Bound? && read(r.path);
      JoinIsRegular(Fields(r.path));
    }
  }

  /** A pathname is found in the table that lists it exactly when it has only single interior spaces. */
  lemma OwnRowFoundIffRegular(header: string, lead: Lead, pad: nat, ino: nat, target: string)
    requires '\n' !in header && target != "" && Bound(lead, pad, ino, target).Valid()
    ensures TableInodes(Render(header, [Bound(lead, pad, ino, target)]), target)
         == if Regular(target) then [ino] else []
  {
    var row := Bound(lead, pad, ino, target);
    ReadRendered(header, [row], target);
    NormalIffRegular(target);
    assert BoundInodes([row][1..], path => Normalize(path) == target) == [];
  }

  lemma TwoSpacesCollapse(a: string, b: string)
    requires IsToken(a) && IsToken(b)
    ensures Normalize(a + "  " + b) == a + " " + b
  {
    var path := a + "  " + b;
    assert path == a + [' '] + (" " + b);
    FieldsOfTokenThen(a, ' ', " " + b);
    assert Spaces(1) == " " + Spaces(0) == " ";
    FieldsSkipSpaces(1, b);
    FieldsOfToken(b);
    assert Fields(path) == [a, b];
    var words := [a, b];
    assert words[1..] == [b] && Join(words) == a + " " + Join([b]);
  }

  /** The collapsing is real: a socket bound to "a  b", with two spaces, is reported as bound to "a b". */
  lemma CollapsedPathnameIsConfused(header: string, lead: Lead, ino: nat, a: string, b: string)
    requires '\n' !in header && IsLead(lead.Texts()) && ino <= MAX_UINT64 && IsToken(a) && IsToken(b)
    ensures TableInodes(Render(header, [Bound(lead, 0, ino, a + "  " + b)]), a + " " + b) == [ino]
  {
    hide IsSpace, Fields;
    var path, target := a + "  " + b, a + " " + b;
    var row := Bound(lead, 0, ino, path);
    TwoSpacesCollapse(a, b);
    TokenHasNoLineFeed([a]);
    TokenHasNoLineFeed([b]);
    ReadRendered(header, [row], target);
    assert BoundInodes([row][1..], p => Normalize(p) == target) == [];
  }
}
