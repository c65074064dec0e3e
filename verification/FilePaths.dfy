/**
 Joining file paths as Go's path.Join and filepath.Join do, as far as the socket paths need it
 (pkg/resources/resources_manager.go, pkg/resources/server.go).
 */
module FilePaths {
  /** The last element of a path, as path.Split gives it. */
  function Base(path: string): (base: string)
    ensures '/' !in base && |base| <= |path| && base == path[|path| - |base|..]
    ensures |base| < |path| ==> path[|path| - |base| - 1] == '/'
  {
    if path == [] || path[|path| - 1] == '/' then ""
    else Base(path[..|path| - 1]) + [path[|path| - 1]]
  }

  /** The parts between the slashes. */
  function Components(path: string): (parts: seq<string>)
    ensures parts != [] && forall p :: p in parts ==> '/' !in p
    decreases |path|
  {
    var base := Base(path);
    if |base| == |path| then [base] else Components(path[..|path| - |base| - 1]) + [base]
  }

  /** One more part on the stack: empty ones and dots are dropped, a double dot undoes what precedes it. */
  function Push(rooted: bool, stack: seq<string>, part: string): seq<string> {
    if part == "" || part == "." then stack
    else if part != ".." then stack + [part]
    else if stack != [] && stack[|stack| - 1] != ".." then stack[..|stack| - 1]
    else if rooted then stack
    else stack + [part]
  }

  function Resolve(rooted: bool, parts: seq<string>): (stack: seq<string>)
    ensures forall n :: 0 <= n < |stack| ==> stack[n] in parts
  {
    if parts == [] then []
    else Push(rooted, Resolve(rooted, parts[..|parts| - 1]), parts[|parts| - 1])
  }

  function Slashed(parts: seq<string>): string
    requires parts != []
  {
    if |parts| == 1 then parts[0] else Slashed(parts[..|parts| - 1]) + "/" + parts[|parts| - 1]
  }

  /** The parts of a path that count. */
  function Stack(path: string): seq<string> {
    Resolve("/" <= path, Components(path))
  }

  function Written(rooted: bool, stack: seq<string>): string {
    if rooted then (if stack == [] then "/" else "/" + Slashed(stack))
    else if stack == [] then "."
    else Slashed(stack)
  }

  /** path.Clean. */
  function Clean(path: string): string {
    Written("/" <= path, Stack(path))
  }

  /** path.Join of a directory and a name. */
  function Join(dir: string, name: string): string {
    if dir == "" && name == "" then ""
    else if dir == "" then Clean(name)
    else if name == "" then Clean(dir)
    else Clean(dir + "/" + name)
  }

  /** A name for one directory entry. */
  ghost predicate IsEntry(name: string) {
    '/' !in name && name != "" && name != "." && name != ".."
  }

  /** The base of a path is whatever follows its last slash. */
  lemma {:induction false} BaseIs(path: string, name: string)
    requires '/' !in name && |name| <= |path| && path[|path| - |name|..] == name
    requires |name| < |path| ==> path[|path| - |name| - 1] == '/'
    ensures Base(path) == name
    decreases |name|
  {
    if name != "" {
      var front, init := path[..|path| - 1], name[..|name| - 1];
      LastOfTail(path, name);
      BaseIs(front, init);
      assert Base(path) == Base(front) + [path[|path| - 1]];
    }
  }

  lemma LastOfTail(path: string, name: string)
    requires name != "" && |name| <= |path| && path[|path| - |name|..] == name && '/' !in name
    ensures
      var front, init := path[..|path| - 1], name[..|name| - 1];
      && front[|front| - |init|..] == init && '/' !in init
      && path[|path| - 1] != '/' && name == init + [path[|path| - 1]]
  {
    hide Base;
    var last := name[|name| - 1];
    assert last in name && path[|path| - 1] == last;
  }

  lemma BaseOfSlashed(parts: seq<string>)
    requires parts != [] && '/' !in parts[|parts| - 1]
    ensures Base(Slashed(parts)) == Base("/" + Slashed(parts)) == parts[|parts| - 1]
  {
    hide Base;
    var last := parts[|parts| - 1];
    if |parts| == 1 {
      BaseIs(last, last);
    } else {
      BaseIs(Slashed(parts), last);
    }
    BaseIs("/" + Slashed(parts), last);
  }

  /** Whatever the directory - empty, relative, with dots - the joined path ends in the entry's own name. */
  lemma BaseOfJoin(dir: string, name: string)
    requires IsEntry(name)
    ensures Base(Join(dir, name)) == name
  {
    var path := if dir == "" then name else dir + "/" + name;
    var rooted := "/" <= path;
    var parts := Components(path);
    if dir == "" {
      BaseIs(name, name);
      assert parts == [name];
    } else {
      BaseIs(path, name);
      assert path[..|path| - |name| - 1] == dir;
      assert parts == Components(dir) + [name];
    }
    var stack := Resolve(rooted, parts);
    assert stack[|stack| - 1] == name;
    BaseOfSlashed(stack);
  }

  /** So different entries of one directory have different paths. */
  lemma JoinInjective(dir: string, a: string, b: string)
    requires IsEntry(a) && IsEntry(b) && Join(dir, a) == Join(dir, b)
    ensures a == b
  {
    BaseOfJoin(dir, a);
    BaseOfJoin(dir, b);
  }

  /** A path extended by an entry has that entry as one more part. */
  lemma StackOfExtended(path: string, name: string)
    requires path != "" && '/' !in name
    ensures "/" <= path + "/" + name <==> "/" <= path
    ensures Stack(path + "/" + name) == Push("/" <= path, Stack(path), name)
  {
    hide Base, Push;
    var longer := path + "/" + name;
    BaseIs(longer, name);
    assert longer[..|longer| - |name| - 1] == path;
    var parts := Components(path);
    assert Components(longer) == parts + [name];
    hide Components;
    assert (parts + [name])[..|parts|] == parts;
    assert longer[0] == path[0];
  }

  /** Cleaning drops a dot. */
  lemma DotIsDropped(path: string)
    requires path != ""
    ensures Clean(path + "/" + ".") == Clean(path)
  {
    hide Stack, Written;
    StackOfExtended(path, ".");
  }

  /** A double dot undoes the entry before it. */
  lemma ParentUndoesEntry(path: string, name: string)
    requires path != "" && IsEntry(name)
    ensures Clean(path + "/" + name + "/" + "..") == Clean(path)
  {
    hide Stack, Written;
    StackOfExtended(path, name);
    var longer := path + "/" + name;
    StackOfExtended(longer, "..");
    PushAndPop("/" <= path, Stack(path), name);
  }

  lemma PushAndPop(rooted: bool, stack: seq<string>, name: string)
    requires IsEntry(name)
    ensures Push(rooted, Push(rooted, stack, name), "..") == stack
  {
  }

  /** An absolute path that is clean, and not the root itself. */
  ghost predicate CleanDirectory(dir: string) {
    "/" <= dir && dir != "/" && Clean(dir) == dir
  }

  lemma WrittenOneMore(stack: seq<string>, name: string)
    requires stack != []
    ensures Written(true, stack + [name]) == Written(true, stack) + "/" + name
  {
    assert (stack + [name])[..|stack|] == stack;
    assert Slashed(stack + [name]) == Slashed(stack) + "/" + name;
    assert "/" + (Slashed(stack) + "/" + name) == ("/" + Slashed(stack)) + "/" + name;
  }

  /** Joined to a clean directory, an entry is just appended; and the result is clean. */
  lemma JoinAppends(dir: string, name: string)
    requires CleanDirectory(dir) && IsEntry(name)
    ensures Join(dir, name) == dir + "/" + name && CleanDirectory(dir + "/" + name)
  {
    StackOfExtended(dir, name);
    assert Stack(dir) != [];
    WrittenOneMore(Stack(dir), name);
    hide Stack, Written;
  }

  /** A single entry below the root is a clean directory. */
  lemma OneEntryIsClean(name: string)
    requires IsEntry(name)
    ensures CleanDirectory("/" + name)
  {
    var path := "/" + name;
    BaseIs(path, name);
    assert path[..|path| - |name| - 1] == "";
    assert Components("") == [""];
    assert Components(path) == [""] + [name];
    var parts := ["", name];
    assert parts[..1] == [""] && parts[..1][..0] == [];
    assert Resolve(true, parts[..1]) == [];
    assert Resolve(true, parts) == [] + [name];
    assert Slashed([name]) == name;
  }
}
