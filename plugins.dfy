/**
  Plugin discovery for the conversion-function package: the file-name filter
  that decides which sibling modules are imported, the module name
  `load_module` derives from a path, the POSIX path helpers it relies on, and
  the class-level `plugins` list every subclass of `Base` appends itself to.
 */
module Plugins {
  import opened Seqs

  /** Python's `s.startswith(p)`. */
  predicate StartsWith(s: string, p: string) {
    p == [] || (s != [] && s[0] == p[0] && StartsWith(s[1..], p[1..]))
  }

  /** Python's `s.endswith(p)`. */
  predicate EndsWith(s: string, p: string) {
    p == [] || (s != [] && s[|s| - 1] == p[|p| - 1] && EndsWith(s[..|s| - 1], p[..|p| - 1]))
  }

  lemma {:induction false} StartsWithIsPrefix(s: string, p: string)
    ensures StartsWith(s, p) <==> |p| <= |s| && s[..|p|] == p
  {
    if p != [] && s != [] {
      StartsWithIsPrefix(s[1..], p[1..]);
      if |p| <= |s| && s[..|p|] == p {
        assert s[1..][..|p| - 1] == p[1..];
      }
      if StartsWith(s, p) {
        assert s[..|p|] == [s[0]] + s[1..][..|p| - 1];
      }
    }
  }

  lemma {:induction false} EndsWithIsSuffix(s: string, p: string)
    ensures EndsWith(s, p) <==> |p| <= |s| && s[|s| - |p|..] == p
  {
    if p != [] && s != [] {
      var s', p' := s[..|s| - 1], p[..|p| - 1];
      EndsWithIsSuffix(s', p');
      if |p| <= |s| && s[|s| - |p|..] == p {
        assert s'[|s'| - |p'|..] == s[|s| - |p|..][..|p| - 1];
      }
      if EndsWith(s, p) {
        assert s[|s| - |p|..] == s'[|s'| - |p'|..] + [s[|s| - 1]];
        assert p == p' + [p[|p| - 1]];
      }
    }
  }

  /**
    The condition for importing a directory entry as a plugin module:
    not hidden, not a dunder file, and a Python source file.
   */
  predicate IsPluginFileName(fname: string) {
    && !StartsWith(fname, ".")
    && !StartsWith(fname, "__")
    && EndsWith(fname, ".py")
  }

  /** The filter stated character by character. */
  lemma PluginFileNameChars(fname: string)
    ensures IsPluginFileName(fname) <==>
      && |fname| >= 3
      && fname[|fname| - 3..] == ".py"
      && fname[0] != '.'
      && !(fname[0] == '_' && fname[1] == '_')
  {
    StartsWithIsPrefix(fname, ".");
    StartsWithIsPrefix(fname, "__");
    EndsWithIsSuffix(fname, ".py");
    if |fname| >= 2 {
      assert fname[..2] == [fname[0], fname[1]];
    }
  }

  lemma PluginFileNameExamples()
    ensures !IsPluginFileName("__init__.py")
    ensures !IsPluginFileName(".x.py")
    ensures IsPluginFileName("sql_functions.py")
    ensures !IsPluginFileName("sql_functions.pyc")
    ensures !IsPluginFileName(".py")
  {
    PluginFileNameChars("__init__.py");
    PluginFileNameChars(".x.py");
    PluginFileNameChars("sql_functions.py");
    PluginFileNameChars("sql_functions.pyc");
    PluginFileNameChars(".py");
  }

  /** POSIX path separator. */
  const Sep: char := '/'

  /**
    The tail of `os.path.split(path)`: the text after the last separator,
    which is the whole path when it has none and empty when it ends in one.
   */
  function ModuleName(path: string): (name: string)
    ensures |name| <= |path| && path[|path| - |name|..] == name
    ensures Sep !in name
    ensures |name| == |path| || path[|path| - |name| - 1] == Sep
  {
    if path == [] then []
    else if path[|path| - 1] == Sep then []
    else
      var init := path[..|path| - 1];
      assert path == init + [path[|path| - 1]];
      ModuleName(init) + [path[|path| - 1]]
  }

  /** Any separator-free suffix that starts the path or follows a separator is the module name. */
  lemma ModuleNameUnique(path: string, name: string)
    requires |name| <= |path| && path[|path| - |name|..] == name
    requires Sep !in name
    requires |name| == |path| || path[|path| - |name| - 1] == Sep
    ensures ModuleName(path) == name
  {
    var r := ModuleName(path);
    assert |r| == |name|;
  }

  /** `os.path.join(a, b)` for two POSIX components. */
  function Join(a: string, b: string): string {
    if StartsWith(b, [Sep]) then b
    else if a == [] || EndsWith(a, [Sep]) then a + b
    else a + [Sep] + b
  }

  /**
    `b` always ends the join; an absolute `b` replaces `a`; otherwise `a`
    starts it, followed by one separator unless `a` is empty or ends in one.
   */
  lemma JoinShape(a: string, b: string)
    ensures |b| <= |Join(a, b)| && Join(a, b)[|Join(a, b)| - |b|..] == b
    ensures b != [] && b[0] == Sep ==> Join(a, b) == b
    ensures !(b != [] && b[0] == Sep) && (a == [] || a[|a| - 1] == Sep) ==> Join(a, b) == a + b
    ensures !(b != [] && b[0] == Sep) && !(a == [] || a[|a| - 1] == Sep) ==> Join(a, b) == a + [Sep] + b
  {
    var absolute := b != [] && b[0] == Sep;
    var endsInSep := a == [] || a[|a| - 1] == Sep;
    assert StartsWith(b, [Sep]) <==> absolute by {
      StartsWithIsPrefix(b, [Sep]);
      if b != [] { assert b[..1] == [b[0]]; }
    }
    assert a == [] || EndsWith(a, [Sep]) <==> endsInSep by {
      EndsWithIsSuffix(a, [Sep]);
      if a != [] { assert a[|a| - 1..] == [a[|a| - 1]]; }
    }
    var r := Join(a, b);
    if absolute {
      assert r == b;
    } else if endsInSep {
      assert r == a + b;
    } else {
      assert r == (a + [Sep]) + b;
    }
  }

  /** Loading the entry `fname` of a directory gives the module the name `fname`. */
  lemma JoinModuleName(dir: string, fname: string)
    requires Sep !in fname
    ensures ModuleName(Join(dir, fname)) == fname
  {
    StartsWithIsPrefix(fname, [Sep]);
    if fname != [] {
      assert fname[..1] == [fname[0]];
    }
    EndsWithIsSuffix(dir, [Sep]);
    var p := Join(dir, fname);
    assert p[|p| - |fname|..] == fname;
    if dir != [] && EndsWith(dir, [Sep]) {
      assert p[|p| - |fname| - 1] == dir[|dir| - 1];
      assert dir[|dir| - 1..] == [dir[|dir| - 1]];
    }
    ModuleNameUnique(p, fname);
  }

  /** The directory entries the package imports, in listing order. */
  function PluginFileNames(fnames: seq<string>): (r: seq<string>)
    ensures |r| <= |fnames|
  {
    if fnames == [] then []
    else (if IsPluginFileName(fnames[0]) then [fnames[0]] else []) + PluginFileNames(fnames[1..])
  }

  /** An entry is imported iff it is listed and passes the filter. */
  lemma {:induction false} PluginFileNamesMembers(fnames: seq<string>, f: string)
    ensures f in PluginFileNames(fnames) <==> f in fnames && IsPluginFileName(f)
  {
    if fnames != [] {
      PluginFileNamesMembers(fnames[1..], f);
      assert fnames == [fnames[0]] + fnames[1..];
    }
  }

  lemma {:induction false} PluginFileNamesAppend(a: seq<string>, b: seq<string>)
    ensures PluginFileNames(a + b) == PluginFileNames(a) + PluginFileNames(b)
  {
    if a == [] {
      assert a + b == b;
    } else {
      ConsAppend(a, b);
      PluginFileNamesAppend(a[1..], b);
      AppendAssoc(if IsPluginFileName(a[0]) then [a[0]] else [], PluginFileNames(a[1..]), PluginFileNames(b));
    }
  }

  /** The paths `load_module` is called with, in listing order. */
  function PluginPaths(dir: string, fnames: seq<string>): seq<string> {
    var names := PluginFileNames(fnames);
    seq(|names|, i requires 0 <= i < |names| => Join(dir, names[i]))
  }

  /**
    The module each loaded path receives is its directory entry's name; so
    the loaded module names are exactly the accepted entries, in order.
   */
  lemma PluginPathsModuleNames(dir: string, fnames: seq<string>)
    requires forall f :: f in fnames ==> Sep !in f
    ensures |PluginPaths(dir, fnames)| == |PluginFileNames(fnames)|
    ensures forall i :: 0 <= i < |PluginPaths(dir, fnames)| ==>
      ModuleName(PluginPaths(dir, fnames)[i]) == PluginFileNames(fnames)[i]
  {
    var names := PluginFileNames(fnames);
    forall i | 0 <= i < |names|
      ensures ModuleName(Join(dir, names[i])) == names[i]
    {
      PluginFileNamesMembers(fnames, names[i]);
      JoinModuleName(dir, names[i]);
    }
  }

  /** The classes the given modules define, module by module, in definition order. */
  function DefinedClasses(paths: seq<string>, classesIn: string -> seq<string>): seq<string> {
    if paths == [] then [] else classesIn(paths[0]) + DefinedClasses(paths[1..], classesIn)
  }

  lemma {:induction false} DefinedClassesAppend(a: seq<string>, b: seq<string>, classesIn: string -> seq<string>)
    ensures DefinedClasses(a + b, classesIn) == DefinedClasses(a, classesIn) + DefinedClasses(b, classesIn)
  {
    if a == [] {
      assert a + b == b;
    } else {
      ConsAppend(a, b);
      DefinedClassesAppend(a[1..], b, classesIn);
    }
  }

  /** `Base`: its class-level `plugins` list, shared by every subclass. */
  class PluginBase {
    var plugins: seq<string>

    /** The class body `plugins = []`. */
    constructor ()
      ensures plugins == []
    {
      plugins := [];
    }

    /** `__init_subclass__`: the new subclass goes to the end; nothing is checked or removed. */
    method InitSubclass(cls: string)
      modifies this
      ensures plugins == old(plugins) + [cls]
    {
      plugins := plugins + [cls];
    }
  }

  /** Registering the same class twice keeps both entries. */
  method RegisterTwice(cls: string) returns (plugins: seq<string>)
    ensures plugins == [cls, cls]
  {
    var base := new PluginBase();
    base.InitSubclass(cls);
    base.InitSubclass(cls);
    plugins := base.plugins;
  }

  /** Executing a module body: each subclass definition runs `__init_subclass__` in turn. */
  method ExecModule(base: PluginBase, classes: seq<string>)
    modifies base
    ensures base.plugins == old(base.plugins) + classes
  {
    var j := 0;
    while j < |classes|
      invariant 0 <= j <= |classes|
      invariant base.plugins == old(base.plugins) + classes[..j]
    {
      base.InitSubclass(classes[j]);
      assert classes[..j + 1] == classes[..j] + [classes[j]];
      j := j + 1;
    }
    assert classes[..j] == classes;
  }

  /** One more directory entry adds its path when the entry passes the filter. */
  lemma PluginPathsSnoc(dir: string, fnames: seq<string>, f: string)
    ensures PluginPaths(dir, fnames + [f])
      == PluginPaths(dir, fnames) + (if IsPluginFileName(f) then [Join(dir, f)] else [])
  {
    PluginFileNamesAppend(fnames, [f]);
    assert [f][1..] == [];
    var names := PluginFileNames(fnames);
    var next := PluginFileNames(fnames + [f]);
    assert next == names + (if IsPluginFileName(f) then [f] else []);
    var lhs, rhs := PluginPaths(dir, fnames + [f]), PluginPaths(dir, fnames) + (if IsPluginFileName(f) then [Join(dir, f)] else []);
    assert |lhs| == |rhs|;
    forall k | 0 <= k < |lhs| ensures lhs[k] == rhs[k] {
      if k < |names| {
        assert next[k] == names[k];
      }
    }
  }

  /** One more loaded module adds the classes it defines. */
  lemma DefinedClassesSnoc(paths: seq<string>, path: string, classesIn: string -> seq<string>)
    ensures DefinedClasses(paths + [path], classesIn) == DefinedClasses(paths, classesIn) + classesIn(path)
  {
    DefinedClassesAppend(paths, [path], classesIn);
    assert [path][1..] == [];
  }

  /**
    The package's import loop over the directory listing `fnames`: every
    accepted entry is loaded by path; executing a module runs its subclass
    definitions, given here by `classesIn`.  Returns the loaded paths.
   */
  method LoadPluginModules(base: PluginBase, dir: string, fnames: seq<string>, classesIn: string -> seq<string>)
    returns (loaded: seq<string>)
    modifies base
    ensures loaded == PluginPaths(dir, fnames)
    ensures base.plugins == old(base.plugins) + DefinedClasses(loaded, classesIn)
  {
    loaded := [];
    var i := 0;
    while i < |fnames|
      invariant 0 <= i <= |fnames|
      invariant loaded == PluginPaths(dir, fnames[..i])
      invariant base.plugins == old(base.plugins) + DefinedClasses(loaded, classesIn)
    {
      var fname := fnames[i];
      assert fnames[..i + 1] == fnames[..i] + [fname];
      PluginPathsSnoc(dir, fnames[..i], fname);
      if IsPluginFileName(fname) {
        var path := Join(dir, fname);
        DefinedClassesSnoc(loaded, path, classesIn);
        AppendAssoc(old(base.plugins), DefinedClasses(loaded, classesIn), classesIn(path));
        ExecModule(base, classesIn(path));
        loaded := loaded + [path];
      }
      i := i + 1;
    }
    assert fnames[..i] == fnames;
  }
}
