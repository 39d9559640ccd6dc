/** The repository tree entries and the filter `handleLoadFiles` applies to
    them before they are listed for selection. */
module Files {
  import opened Common

  /** `FileNode`: a tree entry as the provider returns it. `kind` is the
      entry's `type` field (`"blob"` for a file, `"tree"` for a directory). */
  datatype FileNode = FileNode(path: string, kind: string)

  /** A path with one of the recognised source extensions, tested in the
      page's order. */
  predicate HasCodeExtension(path: string)
  {
    EndsWith(path, ".java") || EndsWith(path, ".js") || EndsWith(path, ".py")
    || EndsWith(path, ".tsx") || EndsWith(path, ".ts")
  }

  /** The filter's test: a blob whose path has a recognised extension. */
  predicate IsCodeFile(f: FileNode)
  {
    f.kind == "blob" && HasCodeExtension(f.path)
  }

  /** `tree.filter(IsCodeFile)`: the entries that are listed. */
  function CodeFiles(tree: seq<FileNode>): (r: seq<FileNode>)
    ensures |r| <= |tree|
    ensures forall i :: 0 <= i < |r| ==> IsCodeFile(r[i]) && r[i] in tree
  {
    if tree == [] then []
    else (if IsCodeFile(tree[0]) then [tree[0]] else []) + CodeFiles(tree[1..])
  }

  /** `r` can be obtained from `s` by deleting entries: same order, no entry
      invented or repeated. */
  ghost predicate IsSubsequence(r: seq<FileNode>, s: seq<FileNode>)
  {
    if r == [] then true
    else if s == [] then false
    else (r[0] == s[0] && IsSubsequence(r[1..], s[1..])) || IsSubsequence(r, s[1..])
  }

  /** The listed entries keep the provider's order. */
  lemma {:induction false} CodeFilesSubsequence(tree: seq<FileNode>)
    ensures IsSubsequence(CodeFiles(tree), tree)
  {
    if tree != [] {
      CodeFilesSubsequence(tree[1..]);
      var rest := CodeFiles(tree[1..]);
      if IsCodeFile(tree[0]) {
        assert CodeFiles(tree) == [tree[0]] + rest;
        assert (CodeFiles(tree))[1..] == rest;
      } else {
        assert CodeFiles(tree) == rest;
        if rest != [] {
          assert IsSubsequence(rest, tree[1..]);
        }
      }
    }
  }

  /** Each code entry is kept exactly as often as the tree holds it, and every
      other entry is dropped: together with `CodeFilesSubsequence` this pins
      the result down completely. */
  lemma {:induction false} CodeFilesCount(tree: seq<FileNode>, f: FileNode)
    ensures multiset(CodeFiles(tree))[f] == if IsCodeFile(f) then multiset(tree)[f] else 0
  {
    if tree != [] {
      CodeFilesCount(tree[1..], f);
      assert tree == [tree[0]] + tree[1..];
      assert multiset(tree) == multiset([tree[0]]) + multiset(tree[1..]);
      var head := if IsCodeFile(tree[0]) then [tree[0]] else [];
      assert multiset(CodeFiles(tree)) == multiset(head) + multiset(CodeFiles(tree[1..]));
    }
  }

  /** An entry is listed if and only if it is a code file of the tree. */
  lemma CodeFilesMembership(tree: seq<FileNode>, f: FileNode)
    ensures f in CodeFiles(tree) <==> f in tree && IsCodeFile(f)
  {
  }

  /** Filtering an already filtered list changes nothing. */
  lemma {:induction false} CodeFilesIdempotent(tree: seq<FileNode>)
    ensures CodeFiles(CodeFiles(tree)) == CodeFiles(tree)
  {
    if tree != [] {
      CodeFilesIdempotent(tree[1..]);
      var rest := CodeFiles(tree[1..]);
      if IsCodeFile(tree[0]) {
        var kept := [tree[0]] + rest;
        assert CodeFiles(tree) == kept;
        assert kept[0] == tree[0] && kept[1..] == rest;
        assert CodeFiles(kept) == [tree[0]] + CodeFiles(rest);
      } else {
        assert CodeFiles(tree) == rest;
      }
    }
  }

  /** The paths of the listed entries: the checkboxes the page renders. */
  function Paths(files: seq<FileNode>): set<string>
  {
    set f | f in files :: f.path
  }
}
