/**
 * Icon lookup by file extension (`getIconByURI`).
 *
 * The URI is parsed against `nul:/` and only its pathname is read; URL parsing
 * is not modelled, so the pathname is the input. Query and fragment never take
 * part: `IsUrlPathname` says what a parsed pathname can be.
 */
module Icons {
  import opened Strings

  /** The object literal the lookup indexes. */
  const IconTable: map<string, string> := map[
    "default" := "mdi-file",
    "json" := "mdi-code-json",
    "md" := "mdi-language-markdown",
    "yml" := "mdi-code-array",
    "yaml" := "mdi-code-array",
    "js" := "mdi-language-javascript",
    "ts" := "mdi-language-typescript",
    "vue" := "mdi-vuejs",
    "java" := "mdi-language-java",
    "kt" := "mdi-language-kotlin",
    "php" := "mdi-language-php",
    "pi" := "mdi-language-python",
    "go" := "mdi-language-go",
    "html" := "mdi-web",
    "htm" := "mdi-web",
    "c#" := "mdi-language-csharp"
  ]

  /**
   * The table as evidently intended: C# sources end in `.cs`, whereas a `#` in a
   * URI starts its fragment, so the `c#` key is never looked up.
   */
  const CorrectedTable: map<string, string> := (IconTable - {"c#"})["cs" := "mdi-language-csharp"]

  /** What `URL.pathname` can hold: `?` starts the query and `#` the fragment. */
  predicate IsUrlPathname(p: string)
  {
    '#' !in p && '?' !in p
  }

  /**
   * Names every plain JavaScript object inherits from `Object.prototype`; indexing
   * the literal with one of them yields that inherited member, not `undefined`.
   */
  const InheritedMembers: set<string> := {
    "constructor", "hasOwnProperty", "isPrototypeOf", "propertyIsEnumerable",
    "toLocaleString", "toString", "valueOf", "__proto__",
    "__defineGetter__", "__defineSetter__", "__lookupGetter__", "__lookupSetter__"
  }

  /** What indexing the literal yields. */
  datatype Lookup =
    | Icon(name: string)        // an own key of the literal
    | NoIcon                    // `undefined`
    | Inherited(member: string) // a function or object from `Object.prototype`

  /** `pathname.split('.').pop()`: the text after the last `.`, or all of it when there is none. */
  function Extension(pathname: string): string
  {
    var parts := Split(pathname, '.');
    parts[|parts| - 1]
  }

  /** `… || 'default'`: the key actually looked up. */
  function Key(pathname: string): string
  {
    var ext := Extension(pathname);
    if ext == "" then "default" else ext
  }

  /** The lookup as written: own keys first, then members inherited from `Object.prototype`. */
  function IconByPathnameAsWritten(pathname: string): (r: Lookup)
    ensures r.Icon? <==> Key(pathname) in IconTable
    ensures r.Icon? ==> r.name == IconTable[Key(pathname)]
    ensures r.Inherited? <==> Key(pathname) in InheritedMembers
  {
    assert IconTable.Keys !! InheritedMembers;
    var key := Key(pathname);
    if key in IconTable then Icon(IconTable[key])
    else if key in InheritedMembers then Inherited(key)
    else NoIcon
  }

  /** The lookup as evidently intended: own keys of the corrected table only; every other key gives no icon. */
  function IconByPathname(pathname: string): (r: Lookup)
    ensures !r.Inherited?
    ensures r.Icon? <==> Key(pathname) in CorrectedTable
    ensures r.Icon? ==> r.name == CorrectedTable[Key(pathname)]
  {
    var key := Key(pathname);
    if key in CorrectedTable then Icon(CorrectedTable[key]) else NoIcon
  }

  // ---------------------------------------------------------------------------

  /** The extension is exactly what follows the last `.`. */
  lemma ExtensionAfterLastDot(stem: string, ext: string)
    requires '.' !in ext
    ensures Extension(stem + "." + ext) == ext
  {
    SplitConcat(stem, ext, '.');
    SplitOfFree(ext, '.');
  }

  /** Without any `.`, the whole pathname is the extension. */
  lemma ExtensionWithoutDot(pathname: string)
    requires '.' !in pathname
    ensures Extension(pathname) == pathname
  {
    SplitOfFree(pathname, '.');
  }

  /** The extension never contains a `.` and is always a suffix of the pathname. */
  lemma {:induction false} ExtensionIsDotFreeSuffix(pathname: string)
    ensures '.' !in Extension(pathname)
    ensures EndsWith(pathname, Extension(pathname))
  {
    SplitShape(pathname, '.');
    var parts := Split(pathname, '.');
    JoinSplit(pathname, '.');
    if |parts| == 1 {
    } else {
      JoinAppend(parts[..|parts| - 1], [parts[|parts| - 1]], '.');
      assert parts[..|parts| - 1] + [parts[|parts| - 1]] == parts;
    }
  }

  /** Every listed extension a parsed pathname can end in maps to exactly its listed icon. */
  lemma ListedExtensions(stem: string, ext: string)
    requires ext in IconTable && ext != "default"
    requires '.' !in ext
    requires IsUrlPathname(stem + "." + ext)
    ensures IconByPathname(stem + "." + ext) == Icon(IconTable[ext])
    ensures IconByPathnameAsWritten(stem + "." + ext) == Icon(IconTable[ext])
  {
    ExtensionAfterLastDot(stem, ext);
    assert ext != "c#" by {
      assert ext[|ext| - 1] in stem + "." + ext;
    }
  }

  /** `yml`/`yaml` share an icon, as do `html`/`htm`, and `md` is Markdown. */
  lemma SharedIcons(stem: string)
    requires IsUrlPathname(stem)
    ensures IconByPathname(stem + ".yml") == IconByPathname(stem + ".yaml") == Icon("mdi-code-array")
    ensures IconByPathname(stem + ".html") == IconByPathname(stem + ".htm") == Icon("mdi-web")
    ensures IconByPathname(stem + ".md") == Icon("mdi-language-markdown")
  {
    assert stem + ".yml" == stem + "." + "yml";
    assert stem + ".yaml" == stem + "." + "yaml";
    assert stem + ".html" == stem + "." + "html";
    assert stem + ".htm" == stem + "." + "htm";
    assert stem + ".md" == stem + "." + "md";
    ListedExtensions(stem, "yml");
    ListedExtensions(stem, "yaml");
    ListedExtensions(stem, "html");
    ListedExtensions(stem, "htm");
    ListedExtensions(stem, "md");
  }

  /** A pathname ending in `.`, or an empty one, falls back to the `default` icon. */
  lemma EmptyExtensionIsDefault(stem: string)
    ensures IconByPathname(stem + ".") == Icon("mdi-file")
    ensures IconByPathname("") == Icon("mdi-file")
  {
    assert stem + "." == stem + "." + "";
    ExtensionAfterLastDot(stem, "");
  }

  /** An extension outside both tables and the inherited names gives no icon: the only fallback is for the empty one. */
  lemma UnlistedExtensionHasNoIcon(stem: string, ext: string)
    requires '.' !in ext && ext != ""
    requires ext !in IconTable && ext !in CorrectedTable && ext !in InheritedMembers
    ensures IconByPathname(stem + "." + ext) == NoIcon
    ensures IconByPathnameAsWritten(stem + "." + ext) == NoIcon
  {
    ExtensionAfterLastDot(stem, ext);
  }

  /** A hierarchical pathname (leading `/`) without any `.` gives no icon. */
  lemma NoDotNoIcon(pathname: string)
    requires |pathname| > 0 && pathname[0] == '/' && '.' !in pathname
    ensures IconByPathname(pathname) == NoIcon
    ensures IconByPathnameAsWritten(pathname) == NoIcon
  {
    ExtensionWithoutDot(pathname);
    KeysDoNotStartWithSlash(pathname);
  }

  lemma KeysDoNotStartWithSlash(k: string)
    requires |k| > 0 && k[0] == '/'
    ensures k !in IconTable && k !in CorrectedTable && k !in InheritedMembers
  {
    assert k !in CorrectedTable.Keys by {
      assert forall key | key in CorrectedTable.Keys :: key[0] != '/';
    }
    assert k !in IconTable.Keys by {
      assert forall key | key in IconTable.Keys :: key[0] != '/';
    }
    assert forall key | key in InheritedMembers :: key[0] != '/';
  }

  /** Matching is case-sensitive: upper-case extensions are not in the table. */
  lemma CaseSensitive(stem: string)
    ensures IconByPathname(stem + ".MD") == NoIcon
    ensures IconByPathname(stem + ".JSON") == NoIcon
  {
    assert stem + ".MD" == stem + "." + "MD";
    assert stem + ".JSON" == stem + "." + "JSON";
    UnlistedExtensionHasNoIcon(stem, "MD");
    UnlistedExtensionHasNoIcon(stem, "JSON");
  }

  /**
   * As written, a file named after an inherited member, such as `/a.constructor`,
   * yields a member of `Object.prototype` instead of `undefined`.
   */
  lemma InheritedKeyLeaks()
    ensures IconByPathnameAsWritten("/a.constructor") == Inherited("constructor")
    ensures IconByPathname("/a.constructor") == NoIcon
  {
    assert "/a.constructor" == "/a" + "." + "constructor";
    ExtensionAfterLastDot("/a", "constructor");
  }

  /**
   * The two lookups differ exactly on the inherited names and on the C# keys:
   * everywhere else the corrected lookup agrees with the one as written.
   */
  lemma CorrectedAgreesOnOwnKeys(pathname: string)
    ensures var key := Key(pathname);
            (IconByPathnameAsWritten(pathname) == IconByPathname(pathname))
              <==> (key !in InheritedMembers && key != "c#" && key != "cs")
  {
    var key := Key(pathname);
    assert "cs" !in IconTable;
    assert "c#" !in InheritedMembers && "cs" !in InheritedMembers;
    if key in IconTable && key != "c#" {
      assert key in CorrectedTable && CorrectedTable[key] == IconTable[key];
    }
  }

  /** No key of the table as written but `c#` has the C# icon. */
  lemma OtherKeysNotCSharp(key: string)
    requires key in IconTable && key != "c#"
    ensures IconTable[key] != "mdi-language-csharp"
  {
  }

  /** As written no parsed pathname gets the C# icon, and a `.cs` file gets none at all. */
  lemma CSharpIconUnreachable(pathname: string)
    requires IsUrlPathname(pathname)
    ensures IconByPathnameAsWritten(pathname) != Icon("mdi-language-csharp")
    ensures IconByPathnameAsWritten("/Program.cs") == NoIcon
  {
    var key := Key(pathname);
    var ext := Extension(pathname);
    ExtensionIsDotFreeSuffix(pathname);
    assert forall i | 0 <= i < |ext| :: ext[i] == pathname[|pathname| - |ext| + i];
    assert '#' !in ext;
    assert key != "c#" by {
      assert "c#"[1] == '#';
    }
    if key in IconTable {
      OtherKeysNotCSharp(key);
    }
    assert "/Program.cs" == "/Program" + "." + "cs";
    UnlistedAsWritten("/Program", "cs");
  }

  lemma UnlistedAsWritten(stem: string, ext: string)
    requires '.' !in ext && ext != "" && ext !in IconTable && ext !in InheritedMembers
    ensures IconByPathnameAsWritten(stem + "." + ext) == NoIcon
  {
    ExtensionAfterLastDot(stem, ext);
  }

  /** Corrected, a `.cs` file gets the C# icon. */
  lemma CSharpFilesGetIcon(stem: string)
    ensures IconByPathname(stem + ".cs") == Icon("mdi-language-csharp")
  {
    assert stem + ".cs" == stem + "." + "cs";
    ExtensionAfterLastDot(stem, "cs");
  }
}
