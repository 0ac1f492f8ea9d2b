/** The two `os.path` operations of the POSIX path module that the gateway relies on. */
module PosixPath {
  import opened Text

  /**
   * What `os.path.join(a, b)` puts in front of a relative `b`: `a` itself
   * when it is empty or already ends in '/', otherwise `a` followed by '/'.
   */
  function JoinPrefix(a: string): (pre: string)
    ensures pre == [] || pre[|pre| - 1] == '/'
    ensures a == [] ==> pre == []
  {
    if a == [] || a[|a| - 1] == '/' then a else a + "/"
  }

  /** `os.path.join(a, b)` for two components: an absolute `b` replaces `a`. */
  function JoinPath(a: string, b: string): (p: string)
    ensures |b| > 0 && b[0] == '/' ==> p == b
    ensures (|b| == 0 || b[0] != '/') ==> p == JoinPrefix(a) + b
  {
    if |b| > 0 && b[0] == '/' then b else JoinPrefix(a) + b
  }

  /** The way `os.path.splitext` splits `p`: the last '.' of the final component starts the extension. */
  predicate HasExtension(p: string)
  {
    var sep := LastIndexOf(p, '/');
    var dot := LastIndexOf(p, '.');
    dot > sep && exists k :: sep + 1 <= k < dot && p[k] != '.'
  }

  /**
   * The second half of `os.path.splitext(p)`: the text from the last '.' of
   * the final path component, provided that component has a character other
   * than '.' before that dot (so a leading run of dots, as in ".bashrc", is
   * not an extension); otherwise the empty string.
   */
  function SplitExtension(p: string): (ext: string)
    ensures |ext| <= |p| && ext == p[|p| - |ext|..]
    ensures ext != [] ==> ext[0] == '.' && '.' !in ext[1..] && '/' !in ext
    ensures ext == [] <==> !HasExtension(p)
  {
    if HasExtension(p) then
      var dot := LastIndexOf(p, '.');
      assert forall k :: dot < k < |p| ==> p[k] != '/';
      p[dot..]
    else []
  }

  /** The text of `s` from its last '.' on, or "" when `s` has no '.'. */
  function DotSuffix(s: string): (r: string)
    ensures r != [] ==> r[0] == '.' && '.' !in r[1..]
    ensures |r| <= |s| && r == s[|s| - |r|..]
  {
    if '.' in s then s[LastIndexOf(s, '.')..] else []
  }

  /** A stored name `tag + "_" + name` holds a character only if `tag`, the '_' or `name` does. */
  lemma StoredNameChars(tag: string, name: string, c: char)
    requires c !in tag && c != '_' && c !in name
    ensures c !in tag + "_" + name
  {
    var b := tag + "_" + name;
    forall k | 0 <= k < |b| ensures b[k] != c {
      if k < |tag| { assert b[k] == tag[k]; }
      else if k > |tag| { assert b[k] == name[k - |tag| - 1]; }
    }
  }

  /** With a '/'-free last part after a join prefix, the last '/' is the prefix's final character. */
  lemma JoinedLastSlash(pre: string, b: string)
    requires pre == [] || pre[|pre| - 1] == '/'
    requires '/' !in b
    ensures LastIndexOf(pre + b, '/') == |pre| - 1
  {
    LastIndexNotInTail(pre, b, '/');
  }

  /** The dot-suffix case of StoredPathExtension. */
  lemma StoredPathWithDot(pre: string, tag: string, name: string)
    requires pre == [] || pre[|pre| - 1] == '/'
    requires tag != [] && '.' !in tag && '/' !in tag && '/' !in name && '.' in name
    ensures SplitExtension(pre + (tag + "_" + name)) == DotSuffix(name)
  {
    var head := tag + "_";
    var b := head + name;
    var p := pre + b;
    StoredNameChars(tag, name, '/');
    JoinedLastSlash(pre, b);
    var j := LastIndexOf(name, '.');
    LastIndexInTail(head, name, '.');
    LastIndexInTail(pre, b, '.');
    var dot := |pre| + |head| + j;
    assert LastIndexOf(p, '.') == dot;
    assert p[|pre|] == tag[0] by { assert b[0] == tag[0]; }
    assert HasExtension(p);
    assert p[dot..] == name[j..] by {
      assert p == (pre + head) + name;
    }
  }

  /** The no-dot case of StoredPathExtension. */
  lemma StoredPathWithoutDot(pre: string, tag: string, name: string)
    requires pre == [] || pre[|pre| - 1] == '/'
    requires '.' !in tag && '/' !in tag && '/' !in name && '.' !in name
    ensures SplitExtension(pre + (tag + "_" + name)) == []
  {
    var b := tag + "_" + name;
    StoredNameChars(tag, name, '/');
    StoredNameChars(tag, name, '.');
    JoinedLastSlash(pre, b);
    LastIndexNotInTail(pre, b, '.');
    assert !HasExtension(pre + b);
  }

  /**
   * The extension `os.path.splitext` finds for a file named `tag + "_" + name`
   * stored in `folder`, where `tag` is a non-empty run of characters with no
   * '.' and no '/' and `name` contains no '/', is exactly the dot-suffix of
   * `name`: the folder never contributes, and the tag keeps a leading dot of
   * `name` from being taken for a hidden-file prefix.
   */
  lemma StoredPathExtension(folder: string, tag: string, name: string)
    requires tag != [] && '.' !in tag && '/' !in tag && '/' !in name
    ensures SplitExtension(JoinPath(folder, tag + "_" + name)) == DotSuffix(name)
  {
    assert (tag + "_" + name)[0] == tag[0];
    if '.' in name {
      StoredPathWithDot(JoinPrefix(folder), tag, name);
    } else {
      StoredPathWithoutDot(JoinPrefix(folder), tag, name);
    }
  }
}
