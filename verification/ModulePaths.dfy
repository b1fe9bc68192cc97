/** Resolving module names to paths: splitting a referrer's path and a module name into pieces,
    walking the pieces on a stack, joining the result. The path separator is '/'. */
module ModulePaths {
  import opened Options
  import opened Text

  /** A directory: the root with its separator, and the rest without the last separator. */
  datatype DirectoryName = DirectoryName(rootName: string, queryName: string)

  /** The position of the last separator before `n`. */
  function ReverseFindAt(s: string, n: nat): (r: nat)
    requires n <= |s| && exists i :: 0 <= i < n && s[i] == '/'
    ensures r < n && s[r] == '/' && forall j | r < j < n :: s[j] != '/'
  {
    if s[n - 1] == '/' then n - 1 else ReverseFindAt(s, n - 1)
  }

  function ExtractDirectoryName(path: string): Option<DirectoryName> {
    var first := FindAt(path, '/', 0);
    if first == |path| then None
    else
      var last := ReverseFindAt(path, |path|);
      Some(DirectoryName(path[..first + 1], if first == last then "" else path[first + 1..last]))
  }

  /** The pieces of a module name; names are split at every '/', empty pieces included. */
  function ModuleName(name: string): (queries: seq<string>) { SplitAll(name, '/') }

  predicate StartsWithRoot(queries: seq<string>) { queries != [] && queries[0] == "" }

  /** One piece of a module name applied to the stack of directory pieces. */
  function Step(stack: seq<string>, query: string): seq<string> {
    if query == ".." then (if stack == [] then [] else stack[..|stack| - 1])
    else if query != "" && query != "." then stack + [query]
    else stack
  }

  function Walk(stack: seq<string>, queries: seq<string>): seq<string> {
    if queries == [] then stack else Step(Walk(stack, queries[..|queries| - 1]), queries[|queries| - 1])
  }

  /** The pieces of the resolved path. */
  function ResolvePieces(dir: DirectoryName, queries: seq<string>): seq<string> {
    Walk(if StartsWithRoot(queries) then [] else Split(dir.queryName, '/'), queries)
  }

  function Resolve(dir: DirectoryName, queries: seq<string>): string {
    dir.rootName + Join(ResolvePieces(dir, queries), '/')
  }

  method ResolvePath(directoryName: DirectoryName, queries: seq<string>) returns (path: string)
    ensures path == Resolve(directoryName, queries)
  {
    var pieces := SplitInternal(directoryName.queryName, '/', false);
    if StartsWithRoot(queries) { pieces := []; }
    ghost var stack := pieces;
    var i := 0;
    while i < |queries|
      invariant 0 <= i <= |queries| && pieces == Walk(stack, queries[..i])
    {
      var query := queries[i];
      if query == ".." {
        if pieces != [] { pieces := pieces[..|pieces| - 1]; }
      } else if query != "" && query != "." {
        pieces := pieces + [query];
      }
      assert queries[..i + 1][..i] == queries[..i];
      i := i + 1;
    }
    assert queries[..i] == queries;
    path := directoryName.rootName;
    i := 0;
    assert pieces[0..] == pieces;
    while i < |pieces|
      invariant 0 <= i <= |pieces| && path + Join(pieces[i..], '/') == directoryName.rootName + Join(pieces, '/')
    {
      assert pieces[i..][1..] == pieces[i + 1..];
      path := path + pieces[i];
      if i + 1 != |pieces| { path := path + "/"; }
      i := i + 1;
    }
  }

  // ---------------------------------------------------------------- what a module name does to a directory

  /** A module name goes up some levels, then down some pieces. */
  datatype Effect = Effect(up: nat, down: seq<string>)

  function StepEffect(e: Effect, query: string): Effect {
    if query == ".." then (if e.down == [] then Effect(e.up + 1, []) else Effect(e.up, e.down[..|e.down| - 1]))
    else if query != "" && query != "." then Effect(e.up, e.down + [query])
    else e
  }

  function EffectOf(queries: seq<string>): Effect {
    if queries == [] then Effect(0, []) else StepEffect(EffectOf(queries[..|queries| - 1]), queries[|queries| - 1])
  }

  /** Going up stops at the root. */
  function Apply(e: Effect, stack: seq<string>): seq<string> {
    (if e.up <= |stack| then stack[..|stack| - e.up] else []) + e.down
  }

  predicate Normal(piece: string) { piece != "" && piece != "." && piece != ".." && '/' !in piece }

  predicate AllNormal(pieces: seq<string>) { forall i | 0 <= i < |pieces| :: Normal(pieces[i]) }

  /** Walking is applying the effect, whatever the stack: in particular ".." never climbs above the
      root, and what was pushed since is popped first. */
  lemma {:induction false} WalkIsEffect(stack: seq<string>, queries: seq<string>)
    ensures Walk(stack, queries) == Apply(EffectOf(queries), stack)
  {
    if queries != [] {
      var front := queries[..|queries| - 1];
      WalkIsEffect(stack, front);
      var e, q := EffectOf(front), queries[|queries| - 1];
      var base := if e.up <= |stack| then stack[..|stack| - e.up] else [];
      if q == ".." {
        if e.down != [] {
          assert (base + e.down)[..|base + e.down| - 1] == base + e.down[..|e.down| - 1];
        } else if base != [] {
          assert base + [] == base && base[..|base| - 1] == stack[..|stack| - (e.up + 1)];
        }
      } else if q != "" && q != "." {
        assert base + e.down + [q] == base + (e.down + [q]);
      }
    }
  }

  lemma {:induction false} EffectIsNormal(queries: seq<string>)
    requires Free(queries, '/')
    ensures AllNormal(EffectOf(queries).down)
  {
    if queries != [] { EffectIsNormal(queries[..|queries| - 1]); }
  }

  /** Module names compose: walking one after the other is walking both. */
  lemma {:induction false} WalkConcat(stack: seq<string>, a: seq<string>, b: seq<string>)
    ensures Walk(stack, a + b) == Walk(Walk(stack, a), b)
  {
    if b == [] {
      assert a + b == a;
    } else {
      var last := |b| - 1;
      assert (a + b)[..|a + b| - 1] == a + b[..last] && (a + b)[|a + b| - 1] == b[last];
      WalkConcat(stack, a, b[..last]);
    }
  }

  // ---------------------------------------------------------------- what resolution promises

  /** The directory pieces that survive a module name. */
  function Kept(dir: DirectoryName, queries: seq<string>): seq<string> {
    var stack, up := Split(dir.queryName, '/'), EffectOf(queries).up;
    if StartsWithRoot(queries) || up > |stack| then [] else stack[..|stack| - up]
  }

  lemma {:induction false} ResolveKeepsThenDescends(dir: DirectoryName, queries: seq<string>)
    ensures ResolvePieces(dir, queries) == Kept(dir, queries) + EffectOf(queries).down
  {
    WalkIsEffect(if StartsWithRoot(queries) then [] else Split(dir.queryName, '/'), queries);
  }

  /** The resolved path has no empty, "." or ".." piece exactly when the directory pieces that
      survive have none; so for a normal directory, always. */
  lemma {:induction false} ResolveIsNormal(dir: DirectoryName, name: string)
    ensures AllNormal(ResolvePieces(dir, ModuleName(name))) <==> AllNormal(Kept(dir, ModuleName(name)))
    ensures AllNormal(Split(dir.queryName, '/')) ==> AllNormal(ResolvePieces(dir, ModuleName(name)))
  {
    var qs := ModuleName(name);
    ResolveKeepsThenDescends(dir, qs);
    SplitAllFree(name, '/');
    EffectIsNormal(qs);
    var kept, down := Kept(dir, qs), EffectOf(qs).down;
    assert forall i | 0 <= i < |kept| :: (kept + down)[i] == kept[i];
  }

  /** Pieces of a resolved path can be split apart again. */
  lemma {:induction false} ResolvePiecesSplit(dir: DirectoryName, name: string)
    ensures var ps := ResolvePieces(dir, ModuleName(name));
      Free(ps, '/') && NoneEmpty(ps) && Split(Join(ps, '/'), '/') == ps
  {
    ResolveKeepsThenDescends(dir, ModuleName(name));
    SplitPieces(dir.queryName, '/');
    SplitAllFree(name, '/');
    EffectIsNormal(ModuleName(name));
    SplitJoin(ResolvePieces(dir, ModuleName(name)), '/');
  }

  /** A root: its only separator is its last character. */
  predicate IsRoot(root: string) { root != "" && root[|root| - 1] == '/' && '/' !in root[..|root| - 1] }

  lemma {:induction false} ExtractBetween(path: string, first: nat, last: nat)
    requires first <= last < |path| && path[first] == '/' && path[last] == '/'
    requires (forall j | 0 <= j < first :: path[j] != '/') && forall j | last < j < |path| :: path[j] != '/'
    ensures ExtractDirectoryName(path)
         == Some(DirectoryName(path[..first + 1], if first == last then "" else path[first + 1..last]))
  {
    assert FindAt(path, '/', 0) == first && ReverseFindAt(path, |path|) == last;
  }

  lemma {:induction false} ExtractFromFile(root: string, f: string)
    requires IsRoot(root) && '/' !in f
    ensures ExtractDirectoryName(root + f) == Some(DirectoryName(root, ""))
  {
    var path, first := root + f, |root| - 1;
    assert forall j | 0 <= j < first :: path[j] == root[..first][j];
    ExtractBetween(path, first, first);
    assert path[..first + 1] == root;
  }

  lemma {:induction false} ExtractFromNested(root: string, middle: string, f: string)
    requires IsRoot(root) && '/' !in f
    ensures ExtractDirectoryName(root + (middle + ['/'] + f)) == Some(DirectoryName(root, middle))
  {
    var path, first, last := root + (middle + ['/'] + f), |root| - 1, |root| + |middle|;
    NestedSlices(root, middle, f);
    assert path[first] == '/' by { assert path[..|root|][first] == '/'; }
    forall j | 0 <= j < first ensures path[j] != '/' { assert path[j] == path[..|root|][j] == root[..first][j]; }
    forall j | last < j < |path| ensures path[j] != '/' { assert path[j] == path[last + 1..][j - last - 1]; }
    ExtractBetween(path, first, last);
  }

  lemma {:induction false} NestedSlices(root: string, middle: string, f: string)
    ensures var path := root + (middle + ['/'] + f);
      && path[..|root|] == root && path[|root|..|root| + |middle|] == middle && path[|root| + |middle|] == '/'
      && path[|root| + |middle| + 1..] == f
  {
  }

  /** The directory of a joined path is its root and all but its last piece. */
  lemma {:induction false} ExtractDropsLast(root: string, front: seq<string>, f: string)
    requires IsRoot(root) && '/' !in f
    ensures ExtractDirectoryName(root + Join(front + [f], '/')) == Some(DirectoryName(root, Join(front, '/')))
  {
    if front == [] {
      assert front + [f] == [f];
      ExtractFromFile(root, f);
    } else {
      JoinSnoc(front, f, '/');
      ExtractFromNested(root, Join(front, '/'), f);
    }
  }

  lemma {:induction false} WalkNormal(stack: seq<string>, ps: seq<string>)
    requires AllNormal(ps)
    ensures Walk(stack, ps) == stack + ps
  {
    if ps != [] {
      var last := |ps| - 1;
      WalkNormal(stack, ps[..last]);
      assert stack + ps[..last] + [ps[last]] == stack + ps;
    }
  }

  lemma {:induction false} AbsoluteName(ps: seq<string>)
    requires AllNormal(ps)
    ensures ModuleName("/" + Join(ps, '/')) == [""] + if ps == [] then [""] else ps
  {
    assert "/" + Join(ps, '/') == "" + ['/'] + Join(ps, '/');
    SplitFirst("", Join(ps, '/'), '/');
    if ps != [] { SplitAllJoin(ps, '/'); }
  }

  /** Resolving a normal absolute path gives the path itself, whatever the referrer. */
  lemma {:induction false} ResolveNormalIsIdentity(dir: DirectoryName, ps: seq<string>)
    requires dir.rootName == "/" && AllNormal(ps)
    ensures Resolve(dir, ModuleName("/" + Join(ps, '/'))) == "/" + Join(ps, '/')
  {
    var tail := if ps == [] then [""] else ps;
    AbsoluteName(ps);
    WalkConcat([], [""], tail);
    assert Walk([], [""]) == [] by { assert [""][..0] == []; }
    if ps != [] {
      WalkNormal([], ps);
      assert [] + ps == ps;
    }
    assert ResolvePieces(dir, [""] + tail) == ps;
  }

  /** Resolution composes: a name "a/b" is b resolved in the directory that a resolves to. */
  lemma {:induction false} ResolveComposes(dir: DirectoryName, a: string, b: string)
    requires !StartsWithRoot(ModuleName(b))
    ensures Resolve(dir, ModuleName(a + "/" + b))
         == Resolve(DirectoryName(dir.rootName, Join(ResolvePieces(dir, ModuleName(a)), '/')), ModuleName(b))
  {
    SplitAllConcat(a, b, '/');
    assert a + "/" + b == a + ['/'] + b;
    assert (ModuleName(a) + ModuleName(b))[0] == ModuleName(a)[0];
    WalkConcat(if StartsWithRoot(ModuleName(a)) then [] else Split(dir.queryName, '/'), ModuleName(a), ModuleName(b));
    ResolvePiecesSplit(dir, a);
  }

  lemma {:induction false} OneMorePiece(dir: DirectoryName, a: string, query: string)
    requires '/' !in query
    ensures ResolvePieces(dir, ModuleName(a + "/" + query)) == Step(ResolvePieces(dir, ModuleName(a)), query)
  {
    SplitAllConcat(a, query, '/');
    assert a + "/" + query == a + ['/'] + query;
    OnePiece(query, '/');
    assert (ModuleName(a) + [query])[0] == ModuleName(a)[0];
    var stack := if StartsWithRoot(ModuleName(a)) then [] else Split(dir.queryName, '/');
    WalkConcat(stack, ModuleName(a), [query]);
    assert [query][..0] == [];
  }

  /** The last piece of a name says where it leads: a normal piece goes down, "." and an empty piece stay, and
      ".." leads to where the name led without its last piece, but never above the root. */
  lemma {:induction false} LastPieceDecides(dir: DirectoryName, a: string, piece: string)
    requires Normal(piece)
    ensures ResolvePieces(dir, ModuleName(a + "/" + piece)) == ResolvePieces(dir, ModuleName(a)) + [piece]
    ensures Resolve(dir, ModuleName(a + "/" + piece + "/..")) == Resolve(dir, ModuleName(a))
    ensures Resolve(dir, ModuleName(a + "/.")) == Resolve(dir, ModuleName(a))
    ensures Resolve(dir, ModuleName(a + "/")) == Resolve(dir, ModuleName(a))
    ensures ResolvePieces(dir, ModuleName(a)) == [] ==> Resolve(dir, ModuleName(a + "/..")) == dir.rootName
  {
    var ps := ResolvePieces(dir, ModuleName(a));
    OneMorePiece(dir, a, piece);
    OneMorePiece(dir, a + "/" + piece, "..");
    assert a + "/" + piece + "/.." == a + "/" + piece + "/" + "..";
    assert (ps + [piece])[..|ps|] == ps;
    OneMorePiece(dir, a, ".");
    assert a + "/." == a + "/" + ".";
    OneMorePiece(dir, a, "");
    assert a + "/" == a + "/" + "";
    OneMorePiece(dir, a, "..");
    assert a + "/.." == a + "/" + "..";
  }

  /** An import of b in a module resolved as "a/f" resolves like "a/b": the directory taken from the
      referrer's path is the one its own name was resolved in. */
  lemma {:induction false} ImportIsRelativeToReferrer(dir: DirectoryName, a: string, f: string, b: string)
    requires IsRoot(dir.rootName) && Normal(f) && !StartsWithRoot(ModuleName(b))
    ensures var referrer := ExtractDirectoryName(Resolve(dir, ModuleName(a + "/" + f)));
      referrer.Some? && Resolve(referrer.value, ModuleName(b)) == Resolve(dir, ModuleName(a + "/" + b))
  {
    var ps := ResolvePieces(dir, ModuleName(a));
    SplitAllConcat(a, f, '/');
    assert a + "/" + f == a + ['/'] + f;
    OnePiece(f, '/');
    assert (ModuleName(a) + [f])[0] == ModuleName(a)[0];
    var stack := if StartsWithRoot(ModuleName(a)) then [] else Split(dir.queryName, '/');
    WalkConcat(stack, ModuleName(a), [f]);
    WalkNormal(ps, [f]);
    assert ResolvePieces(dir, ModuleName(a + "/" + f)) == ps + [f];
    ResolvePiecesSplit(dir, a);
    ExtractDropsLast(dir.rootName, ps, f);
    ResolveComposes(dir, a, b);
  }
}
