/**
 * Identifier derivation (us_helpers.cc): snake_case to camelCase, the
 * outer class name of a file, its package and output directory, Java-style
 * qualified names, field-number constant names and the collision-safe
 * field identifier.
 */
module Naming {
  import opened Wrappers
  import opened StrUtil
  import opened Descriptor

  // ---------------------------------------------------------------------
  // UnderscoresToCamelCaseImpl
  // ---------------------------------------------------------------------

  /**
   * The conversion loop's state after it has consumed input[..n]: the text
   * emitted so far and the capitalize-next-letter flag.
   */
  function CamelState(input: string, n: nat, capFirst: bool): (r: (string, bool))
    requires n <= |input|
    ensures |r.0| <= n
    ensures forall k :: 0 <= k < |r.0| ==> IsAlnum(r.0[k])
    decreases n
  {
    if n == 0 then ("", capFirst)
    else
      var (acc, cap) := CamelState(input, n - 1, capFirst);
      var c := input[n - 1];
      if IsLower(c) then (acc + [if cap then ToUpperChar(c) else c], false)
      else if IsUpper(c) then (acc + [if n - 1 == 0 && !cap then ToLowerChar(c) else c], false)
      else if IsDigit(c) then (acc + [c], true)
      else (acc, true)
  }

  /** The camel-cased text of input; capFirst asks for a capital first letter. */
  function CamelCase(input: string, capFirst: bool): (r: string)
    ensures |r| <= |input|
    ensures forall k :: 0 <= k < |r| ==> IsAlnum(r[k])
    ensures input == "" ==> r == ""
  {
    CamelState(input, |input|, capFirst).0
  }

  method UnderscoresToCamelCaseImpl(input: string, capNextLetter: bool) returns (result: string)
    ensures result == CamelCase(input, capNextLetter)
  {
    result := "";
    var cap := capNextLetter;
    var i := 0;
    while i < |input|
      invariant 0 <= i <= |input|
      invariant (result, cap) == CamelState(input, i, capNextLetter)
    {
      var c := input[i];
      if 'a' <= c <= 'z' {
        if cap {
          result := result + [(c as int + ('A' as int - 'a' as int)) as char];
        } else {
          result := result + [c];
        }
        cap := false;
      } else if 'A' <= c <= 'Z' {
        if i == 0 && !cap {
          // Force the first letter to lower case unless asked to capitalize it.
          result := result + [(c as int + ('a' as int - 'A' as int)) as char];
        } else {
          result := result + [c];
        }
        cap := false;
      } else if '0' <= c <= '9' {
        result := result + [c];
        cap := true;
      } else {
        cap := true;
      }
      i := i + 1;
    }
  }

  /**
   * What position i of the input contributes to the output. The flag that
   * capitalizes a lower-case letter is, past the first position, simply
   * "the previous input character is not a letter".
   */
  function CamelPiece(input: string, i: nat, capFirst: bool): string
    requires i < |input|
  {
    var c := input[i];
    var capBefore := if i == 0 then capFirst else !IsLetter(input[i - 1]);
    if IsLower(c) then [if capBefore then ToUpperChar(c) else c]
    else if IsUpper(c) then [if i == 0 && !capFirst then ToLowerChar(c) else c]
    else if IsDigit(c) then [c]
    else []
  }

  /** The pieces of input[..n], concatenated in order. */
  function CamelPieces(input: string, n: nat, capFirst: bool): string
    requires n <= |input|
    decreases n
  {
    if n == 0 then "" else CamelPieces(input, n - 1, capFirst) + CamelPiece(input, n - 1, capFirst)
  }

  lemma {:induction false} CamelStateIsPieces(input: string, n: nat, capFirst: bool)
    requires n <= |input|
    ensures CamelState(input, n, capFirst)
         == (CamelPieces(input, n, capFirst), if n == 0 then capFirst else !IsLetter(input[n - 1]))
    decreases n
  {
    if n > 0 {
      CamelStateIsPieces(input, n - 1, capFirst);
      var prev := CamelState(input, n - 1, capFirst);
      var next := CamelState(input, n, capFirst);
      var piece := CamelPiece(input, n - 1, capFirst);
      assert prev.1 == (if n - 1 == 0 then capFirst else !IsLetter(input[n - 2]));
      assert next.0 == prev.0 + piece;
      assert next.1 == !IsLetter(input[n - 1]);
    }
  }

  /**
   * The conversion character by character: lower-case letters are
   * capitalized exactly when they follow a non-letter (or start the input
   * with capFirst); only the very first input character can be forced to
   * lower case, and only when capFirst is false; later capitals and all
   * digits are copied; every other character is dropped.
   */
  lemma CamelCaseIsPieces(input: string, capFirst: bool)
    ensures CamelCase(input, capFirst) == CamelPieces(input, |input|, capFirst)
  {
    CamelStateIsPieces(input, |input|, capFirst);
  }

  lemma CamelCaseExample()
    ensures CamelCase("foo_bar", false) == "fooBar"
  {
    assert CamelState("foo_bar", 1, false).0 == "f" && CamelState("foo_bar", 1, false).1 == false;
    assert CamelState("foo_bar", 2, false).0 == "fo" && CamelState("foo_bar", 2, false).1 == false;
    assert CamelState("foo_bar", 3, false).0 == "foo" && CamelState("foo_bar", 3, false).1 == false;
    assert CamelState("foo_bar", 4, false).0 == "foo" && CamelState("foo_bar", 4, false).1 == true;
    assert CamelState("foo_bar", 5, false).0 == "fooB" && CamelState("foo_bar", 5, false).1 == false;
    assert CamelState("foo_bar", 6, false).0 == "fooBa" && CamelState("foo_bar", 6, false).1 == false;
    assert CamelState("foo_bar", 7, false).0 == "fooBar" && CamelState("foo_bar", 7, false).1 == false;
  }

  lemma CapitalizedCamelCaseExample()
    ensures CamelCase("foo_bar", true) == "FooBar"
  {
    assert CamelState("foo_bar", 1, true).0 == "F" && CamelState("foo_bar", 1, true).1 == false;
    assert CamelState("foo_bar", 2, true).0 == "Fo" && CamelState("foo_bar", 2, true).1 == false;
    assert CamelState("foo_bar", 3, true).0 == "Foo" && CamelState("foo_bar", 3, true).1 == false;
    assert CamelState("foo_bar", 4, true).0 == "Foo" && CamelState("foo_bar", 4, true).1 == true;
    assert CamelState("foo_bar", 5, true).0 == "FooB" && CamelState("foo_bar", 5, true).1 == false;
    assert CamelState("foo_bar", 6, true).0 == "FooBa" && CamelState("foo_bar", 6, true).1 == false;
    assert CamelState("foo_bar", 7, true).0 == "FooBar" && CamelState("foo_bar", 7, true).1 == false;
  }

  lemma CamelCaseThreeWordsExample()
    ensures CamelCase("foo_bar_baz", false) == "fooBarBaz"
  {
    assert CamelState("foo_bar_baz", 1, false).0 == "f" && CamelState("foo_bar_baz", 1, false).1 == false;
    assert CamelState("foo_bar_baz", 2, false).0 == "fo" && CamelState("foo_bar_baz", 2, false).1 == false;
    assert CamelState("foo_bar_baz", 3, false).0 == "foo" && CamelState("foo_bar_baz", 3, false).1 == false;
    assert CamelState("foo_bar_baz", 4, false).0 == "foo" && CamelState("foo_bar_baz", 4, false).1 == true;
    assert CamelState("foo_bar_baz", 5, false).0 == "fooB" && CamelState("foo_bar_baz", 5, false).1 == false;
    assert CamelState("foo_bar_baz", 6, false).0 == "fooBa" && CamelState("foo_bar_baz", 6, false).1 == false;
    assert CamelState("foo_bar_baz", 7, false).0 == "fooBar" && CamelState("foo_bar_baz", 7, false).1 == false;
    assert CamelState("foo_bar_baz", 8, false).0 == "fooBar" && CamelState("foo_bar_baz", 8, false).1 == true;
    assert CamelState("foo_bar_baz", 9, false).0 == "fooBarB" && CamelState("foo_bar_baz", 9, false).1 == false;
    assert CamelState("foo_bar_baz", 10, false).0 == "fooBarBa" && CamelState("foo_bar_baz", 10, false).1 == false;
    assert CamelState("foo_bar_baz", 11, false).0 == "fooBarBaz" && CamelState("foo_bar_baz", 11, false).1 == false;
  }

  lemma CapitalizedThreeWordsExample()
    ensures CamelCase("foo_bar_baz", true) == "FooBarBaz"
  {
    assert CamelState("foo_bar_baz", 1, true).0 == "F" && CamelState("foo_bar_baz", 1, true).1 == false;
    assert CamelState("foo_bar_baz", 2, true).0 == "Fo" && CamelState("foo_bar_baz", 2, true).1 == false;
    assert CamelState("foo_bar_baz", 3, true).0 == "Foo" && CamelState("foo_bar_baz", 3, true).1 == false;
    assert CamelState("foo_bar_baz", 4, true).0 == "Foo" && CamelState("foo_bar_baz", 4, true).1 == true;
    assert CamelState("foo_bar_baz", 5, true).0 == "FooB" && CamelState("foo_bar_baz", 5, true).1 == false;
    assert CamelState("foo_bar_baz", 6, true).0 == "FooBa" && CamelState("foo_bar_baz", 6, true).1 == false;
    assert CamelState("foo_bar_baz", 7, true).0 == "FooBar" && CamelState("foo_bar_baz", 7, true).1 == false;
    assert CamelState("foo_bar_baz", 8, true).0 == "FooBar" && CamelState("foo_bar_baz", 8, true).1 == true;
    assert CamelState("foo_bar_baz", 9, true).0 == "FooBarB" && CamelState("foo_bar_baz", 9, true).1 == false;
    assert CamelState("foo_bar_baz", 10, true).0 == "FooBarBa" && CamelState("foo_bar_baz", 10, true).1 == false;
    assert CamelState("foo_bar_baz", 11, true).0 == "FooBarBaz" && CamelState("foo_bar_baz", 11, true).1 == false;
  }

  /** Capitals after the first are copied as they are, so an acronym keeps all but its first letter. */
  lemma CamelCaseAcronymExample()
    ensures CamelCase("HTMLFile", false) == "hTMLFile"
  {
    assert CamelState("HTMLFile", 1, false).0 == "h" && CamelState("HTMLFile", 1, false).1 == false;
    assert CamelState("HTMLFile", 2, false).0 == "hT" && CamelState("HTMLFile", 2, false).1 == false;
    assert CamelState("HTMLFile", 3, false).0 == "hTM" && CamelState("HTMLFile", 3, false).1 == false;
    assert CamelState("HTMLFile", 4, false).0 == "hTML" && CamelState("HTMLFile", 4, false).1 == false;
    assert CamelState("HTMLFile", 5, false).0 == "hTMLF" && CamelState("HTMLFile", 5, false).1 == false;
    assert CamelState("HTMLFile", 6, false).0 == "hTMLFi" && CamelState("HTMLFile", 6, false).1 == false;
    assert CamelState("HTMLFile", 7, false).0 == "hTMLFil" && CamelState("HTMLFile", 7, false).1 == false;
    assert CamelState("HTMLFile", 8, false).0 == "hTMLFile" && CamelState("HTMLFile", 8, false).1 == false;
  }

  /** Only the first character is forced to lower case; later capitals stay. */
  lemma CamelCaseKeepsLaterCapitals()
    ensures CamelCase("FooBar", false) == "fooBar"
  {
    assert CamelState("FooBar", 1, false).0 == "f" && CamelState("FooBar", 1, false).1 == false;
    assert CamelState("FooBar", 2, false).0 == "fo" && CamelState("FooBar", 2, false).1 == false;
    assert CamelState("FooBar", 3, false).0 == "foo" && CamelState("FooBar", 3, false).1 == false;
    assert CamelState("FooBar", 4, false).0 == "fooB" && CamelState("FooBar", 4, false).1 == false;
    assert CamelState("FooBar", 5, false).0 == "fooBa" && CamelState("FooBar", 5, false).1 == false;
    assert CamelState("FooBar", 6, false).0 == "fooBar" && CamelState("FooBar", 6, false).1 == false;
  }

  /** Already camel-cased text whose first letter has the requested case. */
  predicate IsCamelIdentifier(s: string, capFirst: bool)
  {
    && (forall i :: 0 <= i < |s| ==> IsAlnum(s[i]))
    && (forall i :: 0 < i < |s| && IsLower(s[i]) ==> IsLetter(s[i - 1]))
    && (|s| > 0 ==> if capFirst then !IsLower(s[0]) else !IsUpper(s[0]))
  }

  lemma {:induction false} CamelStateOnIdentifier(s: string, n: nat, capFirst: bool)
    requires IsCamelIdentifier(s, capFirst) && n <= |s|
    ensures CamelState(s, n, capFirst) == (s[..n], if n == 0 then capFirst else !IsLetter(s[n - 1]))
    decreases n
  {
    if n > 0 {
      CamelStateOnIdentifier(s, n - 1, capFirst);
      assert s[..n] == s[..n - 1] + [s[n - 1]];
    }
  }

  /** Camel-casing leaves an already camel-cased identifier unchanged. */
  lemma CamelCaseFixpoint(s: string, capFirst: bool)
    requires IsCamelIdentifier(s, capFirst)
    ensures CamelCase(s, capFirst) == s
  {
    CamelStateOnIdentifier(s, |s|, capFirst);
    assert s[..|s|] == s;
  }

  lemma {:induction false} CapitalizedStateIsIdentifier(s: string, n: nat)
    requires n <= |s|
    ensures var (acc, cap) := CamelState(s, n, true);
      && IsCamelIdentifier(acc, true)
      && (acc == "" ==> cap)
      && (!cap && acc != "" ==> IsLetter(acc[|acc| - 1]))
    decreases n
  {
    if n > 0 {
      CapitalizedStateIsIdentifier(s, n - 1);
      var (acc, cap) := CamelState(s, n - 1, true);
      var (acc', cap') := CamelState(s, n, true);
      if acc' != acc {
        assert acc' == acc + [acc'[|acc'| - 1]];
        forall i | 0 < i < |acc'| && IsLower(acc'[i]) ensures IsLetter(acc'[i - 1]) {
          if i < |acc| { assert acc'[i] == acc[i] && acc'[i - 1] == acc[i - 1]; }
        }
      }
    }
  }

  /** Camel-casing with a capital first letter is idempotent. */
  lemma CapitalizedCamelCaseIdempotent(s: string)
    ensures CamelCase(CamelCase(s, true), true) == CamelCase(s, true)
  {
    CapitalizedStateIsIdentifier(s, |s|);
    CamelCaseFixpoint(CamelCase(s, true), true);
  }

  lemma {:induction false} CapFirstStates(s: string, n: nat)
    requires n <= |s|
    ensures var (a, fa) := CamelState(s, n, true);
      var (b, fb) := CamelState(s, n, false);
      && |a| == |b|
      && (n > 0 ==> fa == fb)
      && (|a| > 0 ==> a[1..] == b[1..])
    decreases n
  {
    if n > 0 {
      CapFirstStates(s, n - 1);
      var (a, fa) := CamelState(s, n - 1, true);
      var (b, fb) := CamelState(s, n - 1, false);
      var (a', _) := CamelState(s, n, true);
      var (b', _) := CamelState(s, n, false);
      if |a'| > |a| && |a| > 0 {
        assert a'[1..] == a[1..] + [a'[|a|]];
        assert b'[1..] == b[1..] + [b'[|b|]];
      }
    }
  }

  /**
   * The two capitalizations differ at most in their first character: the
   * outputs have the same length and agree from the second character on.
   */
  lemma CapitalizationOnlyAffectsFirst(s: string)
    ensures |CamelCase(s, true)| == |CamelCase(s, false)|
    ensures |CamelCase(s, true)| > 0 ==> CamelCase(s, true)[1..] == CamelCase(s, false)[1..]
  {
    CapFirstStates(s, |s|);
  }

  /** FieldName: a group field is named after its group type. */
  function FieldName(f: Field): string
  {
    if f.fieldType == Group then f.typeName else f.name
  }

  method UnderscoresToCamelCase(f: Field) returns (r: string)
    ensures f.fieldType != Group ==> r == CamelCase(f.name, false)
    ensures f.fieldType == Group ==> r == CamelCase(f.typeName, false)
  {
    r := UnderscoresToCamelCaseImpl(FieldName(f), false);
  }

  method UnderscoresToCapitalizedCamelCase(f: Field) returns (r: string)
    ensures f.fieldType != Group ==> r == CamelCase(f.name, true)
    ensures f.fieldType == Group ==> r == CamelCase(f.typeName, true)
  {
    r := UnderscoresToCamelCaseImpl(FieldName(f), true);
  }

  /** The MethodDescriptor overload: a service method's name, first letter lowered. */
  method UnderscoresToCamelCaseMethod(methodName: string) returns (r: string)
    ensures r == CamelCase(methodName, false)
  {
    r := UnderscoresToCamelCaseImpl(methodName, false);
  }

  // ---------------------------------------------------------------------
  // File names, packages and qualified names
  // ---------------------------------------------------------------------

  function StripProto(filename: string): (r: string)
    ensures HasSuffix(filename, ".protodevel") ==> r + ".protodevel" == filename
    ensures !HasSuffix(filename, ".protodevel") && HasSuffix(filename, ".proto") ==> r + ".proto" == filename
    ensures !HasSuffix(filename, ".protodevel") && !HasSuffix(filename, ".proto") ==> r == filename
  {
    if HasSuffix(filename, ".protodevel") then StripSuffix(filename, ".protodevel")
    else StripSuffix(filename, ".proto")
  }

  /** Appending either schema extension and stripping it gives the stem back. */
  lemma StripProtoRoundTrip(stem: string)
    ensures StripProto(stem + ".proto") == stem
    ensures StripProto(stem + ".protodevel") == stem
  {
    var p := stem + ".proto";
    AppendedSuffix(stem, ".proto");
    assert p[|p| - 1] == 'o';
    SuffixLastChar(p, ".protodevel");
    var r := StripProto(p);
    assert r + ".proto" == p;
    assert |r| == |stem|;
    assert r == (r + ".proto")[..|stem|] == p[..|stem|] == stem;
    var r' := StripProto(stem + ".protodevel");
    assert r' + ".protodevel" == stem + ".protodevel";
    assert r' == (r' + ".protodevel")[..|stem|] == (stem + ".protodevel")[..|stem|] == stem;
    AppendedSuffix(stem, ".protodevel");
  }

  /** The part of a path after its last '/' (the whole path when it has none). */
  function Basename(path: string): string
    decreases |path|
  {
    if path == [] then ""
    else if path[|path| - 1] == '/' then ""
    else Basename(path[..|path| - 1]) + [path[|path| - 1]]
  }

  /** Basename is the longest suffix without a '/': what follows the last '/'. */
  lemma {:induction false} BasenameIsLastComponent(path: string)
    ensures var r := Basename(path);
      && '/' !in r
      && |r| <= |path| && r == path[|path| - |r|..]
      && (|r| < |path| ==> path[|path| - |r| - 1] == '/')
    decreases |path|
  {
    if path != [] && path[|path| - 1] != '/' {
      var p' := path[..|path| - 1];
      BasenameIsLastComponent(p');
      var r', c := Basename(p'), path[|path| - 1];
      assert Basename(path) == r' + [c];
      assert path == p' + [c];
      assert path[|path| - |r'| - 1..] == p'[|p'| - |r'|..] + [c];
      if |r'| + 1 < |path| {
        assert path[|path| - |r'| - 2] == p'[|p'| - |r'| - 1];
      }
    }
  }

  lemma {:induction false} BasenameAfterSlash(dir: string, q: string)
    requires '/' !in q
    ensures Basename(dir + "/" + q) == q
    decreases |q|
  {
    var p := dir + "/" + q;
    if q != [] {
      var q' := q[..|q| - 1];
      assert p[..|p| - 1] == dir + "/" + q';
      BasenameAfterSlash(dir, q');
      assert q == q' + [q[|q| - 1]];
    }
  }

  lemma {:induction false} BasenameWithoutSlash(q: string)
    requires '/' !in q
    ensures Basename(q) == q
    decreases |q|
  {
    if q != [] {
      var q' := q[..|q| - 1];
      BasenameWithoutSlash(q');
      assert q == q' + [q[|q| - 1]];
    }
  }

  /** FileClassName: the outer class name option verbatim, else the camel-cased file stem. */
  function FileClassName(file: FileDescriptor): (r: string)
    ensures file.options.javaOuterClassname.Some? ==> r == file.options.javaOuterClassname.value
  {
    match file.options.javaOuterClassname
    case Some(n) => n
    case None => CamelCase(StripProto(Basename(file.name)), true)
  }

  /** Without the option, "dir/foo_bar.proto" gives CamelCase("foo_bar", true), i.e. "FooBar". */
  lemma FileClassNameFromPath(file: FileDescriptor, dir: string, stem: string, ext: string)
    requires file.options.javaOuterClassname.None?
    requires ext == ".proto" || ext == ".protodevel"
    requires '/' !in stem
    requires file.name == dir + "/" + stem + ext || file.name == stem + ext
    ensures FileClassName(file) == CamelCase(stem, true)
  {
    assert '/' !in ext;
    assert '/' !in stem + ext;
    if file.name == dir + "/" + stem + ext {
      assert dir + "/" + stem + ext == dir + "/" + (stem + ext);
      BasenameAfterSlash(dir, stem + ext);
    } else {
      BasenameWithoutSlash(stem + ext);
    }
    StripProtoRoundTrip(stem);
  }

  /** kDefaultPackage. */
  const DefaultPackage: string := ""

  function FileJavaPackage(file: FileDescriptor): (r: string)
    ensures file.options.javaPackage.Some? ==> r == file.options.javaPackage.value
    ensures file.options.javaPackage.None? ==> r == file.package
  {
    match file.options.javaPackage
    case Some(p) => p
    case None =>
      var result := DefaultPackage;
      if file.package == "" then result
      else (if result == "" then result else result + ".") + file.package
  }

  /** Dots become slashes, and a non-empty result ends with '/'. */
  function JavaPackageToDir(packageName: string): (r: string)
    ensures |r| == |packageName| + (if packageName == "" then 0 else 1)
    ensures forall i :: 0 <= i < |packageName| ==> r[i] == (if packageName[i] == '.' then '/' else packageName[i])
    ensures packageName != "" ==> r[|r| - 1] == '/'
    ensures '.' !in r
  {
    var packageDir := ReplaceChar(packageName, '.', '/');
    if packageDir != "" then packageDir + "/" else packageDir
  }

  /** Each package component becomes one directory level. */
  lemma JavaPackageToDirJoin(p: string, q: string)
    requires p != "" && q != ""
    ensures JavaPackageToDir(p + "." + q) == JavaPackageToDir(p) + JavaPackageToDir(q)
  {
    var rp, rq := ReplaceChar(p, '.', '/'), ReplaceChar(q, '.', '/');
    ReplaceCharAppend(p, "." + q, '.', '/');
    ReplaceCharAppend(".", q, '.', '/');
    assert p + "." + q == p + ("." + q);
    assert ReplaceChar(".", '.', '/') == "/";
    assert ReplaceChar(p + "." + q, '.', '/') == rp + "/" + rq;
    assert rp != "" && rq != "";
  }

  /**
   * A proto full name in the Java namespace: the proto package (and its
   * dot) is cut from the front of fullName and replaced by the Java package
   * (multiple files) or the file's outer class.
   */
  function ToJavaName(fullName: string, file: FileDescriptor): (r: string)
    requires file.package != "" ==> |file.package| + 1 <= |fullName|
    ensures var local := if file.package == "" then fullName else fullName[|file.package| + 1..];
      |r| >= |local| && r[|r| - |local|..] == local
  {
    var prefix := JavaQualifier(file);
    var result := if prefix == "" then prefix else prefix + ".";
    if file.package == "" then result + fullName
    else result + fullName[|file.package| + 1..]
  }

  /** What stands in front of a Java name: the Java package (multiple files) or the outer class. */
  function JavaQualifier(file: FileDescriptor): string
  {
    if file.options.javaMultipleFiles then FileJavaPackage(file) else ClassName(file)
  }

  /**
   * The proto package and its dot are cut from the front of a full name,
   * however many dots the rest holds, and the Java qualifier takes their place.
   */
  lemma ToJavaNameStripsPackage(file: FileDescriptor, rest: string)
    ensures file.package != "" ==>
      ToJavaName(file.package + "." + rest, file)
        == (if JavaQualifier(file) == "" then rest else JavaQualifier(file) + "." + rest)
    ensures file.package == "" ==>
      ToJavaName(rest, file) == (if JavaQualifier(file) == "" then rest else JavaQualifier(file) + "." + rest)
  {
    if file.package != "" {
      var full := file.package + "." + rest;
      assert full[|file.package| + 1..] == rest;
    }
  }

  /** ClassName(FileDescriptor): the Java package, a dot when it is non-empty, then the outer class. */
  function ClassName(file: FileDescriptor): (r: string)
    ensures FileJavaPackage(file) == "" ==> r == FileClassName(file)
    ensures FileJavaPackage(file) != "" ==> r == FileJavaPackage(file) + "." + FileClassName(file)
  {
    var result := FileJavaPackage(file);
    (if result != "" then result + "." else result) + FileClassName(file)
  }

  /**
   * ClassName of a message, enum or service descriptor and
   * ExtensionIdentifierName, for a declaration at the top level of file.
   */
  function TopLevelClassName(file: FileDescriptor, name: string): (r: string)
    ensures file.options.javaMultipleFiles ==>
      r == (if FileJavaPackage(file) == "" then name else FileJavaPackage(file) + "." + name)
    ensures !file.options.javaMultipleFiles ==>
      r == (if ClassName(file) == "" then name else ClassName(file) + "." + name)
  {
    var full := TopLevelFullName(file, name);
    assert file.package != "" ==> full[|file.package| + 1..] == name;
    ToJavaName(full, file)
  }

  // ---------------------------------------------------------------------
  // Field identifiers
  // ---------------------------------------------------------------------

  /** The field-number constant: the name followed by the suffix, all upper-cased. */
  function FieldConstantName(f: Field): (r: string)
    ensures r == UpperString(f.name) + "_FIELD_NUMBER"
  {
    var name := f.name + "_FIELD_NUMBER";
    UpperStringAppend(f.name, "_FIELD_NUMBER");
    UpperStringFixpoint("_FIELD_NUMBER");
    UpperString(name)
  }

  method ToUpperCase(str: string) returns (r: string)
    ensures r == UpperString(str)
  {
    r := str;
    var i := 0;
    while i < |r|
      invariant |r| == |str| && 0 <= i <= |r|
      invariant forall k :: 0 <= k < i ==> r[k] == ToUpperChar(str[k])
      invariant forall k :: i <= k < |r| ==> r[k] == str[k]
    {
      r := r[i := ToUpperChar(r[i])];
      i := i + 1;
    }
  }

  /** "name" would shadow a member of the runtime's base class, so it is renamed. */
  function SafeFieldname(str: string): (r: string)
    ensures r != "name"
    ensures r == str || str == "name"
  {
    if str == "name" then "_name" else str
  }

  /**
   * SafeFieldname is one-to-one except that "name" and "_name" both become
   * "_name", so a message declaring both gets two storage members of one name.
   */
  lemma SafeFieldnameCollision(a: string, b: string)
    ensures SafeFieldname(a) == SafeFieldname(b)
        <==> a == b || (a == "name" && b == "_name") || (a == "_name" && b == "name")
  {
  }
}
