/** File-name utilities of downloader.py: the MIME-type extension table,
    `sanitize_filename`, and the directory name `create_download_directory`
    chooses for a collection. */
module FileNames {
  import opened Values
  import opened Paths

  /** The extensions fixed by the downloader for common media types. */
  const MimeExtensions: map<string, string> := map[
    "image/jpeg" := ".jpg",
    "image/png" := ".png",
    "image/gif" := ".gif",
    "image/webp" := ".webp",
    "video/mp4" := ".mp4",
    "video/quicktime" := ".mov",
    "video/webm" := ".webm"
  ]

  /** `get_file_extension`: the fixed table first, then the system MIME table;
      a type neither knows yields the empty extension. */
  function GetFileExtension(mime: string, host: Host): (ext: string)
    ensures mime in MimeExtensions ==> ext == MimeExtensions[mime]
    ensures mime !in MimeExtensions && host.guessExtension(mime).None? ==> ext == ""
    ensures mime !in MimeExtensions && host.guessExtension(mime).Some? ==> ext == host.guessExtension(mime).value
  {
    if mime in MimeExtensions then MimeExtensions[mime]
    else match host.guessExtension(mime)
      case Some(e) => e
      case None => ""
  }

  /** The seven fixed entries win over whatever the system table says. */
  lemma FixedExtensions(host: Host)
    ensures GetFileExtension("image/jpeg", host) == ".jpg"
    ensures GetFileExtension("image/png", host) == ".png"
    ensures GetFileExtension("image/gif", host) == ".gif"
    ensures GetFileExtension("image/webp", host) == ".webp"
    ensures GetFileExtension("video/mp4", host) == ".mp4"
    ensures GetFileExtension("video/quicktime", host) == ".mov"
    ensures GetFileExtension("video/webm", host) == ".webm"
  {
  }

  /** Characters a file name must not contain. */
  const InvalidChars: string := "<>:\"/\\|?*"

  /** Longest stem kept when a name is shortened. */
  const MaxNameLength: nat := 200

  /** Replaced by `_`: the invalid characters and the space. */
  predicate Unsafe(c: char) {
    c in InvalidChars || c == ' '
  }

  /** `s.replace(c, d)` for single characters. */
  function Replace(s: string, c: char, d: char): string {
    seq(|s|, i requires 0 <= i < |s| => if s[i] == c then d else s[i])
  }

  /** The loop `for char in cs: s = s.replace(char, '_')`. */
  function ReplaceEach(s: string, cs: string): string
    decreases |cs|
  {
    if |cs| == 0 then s else ReplaceEach(Replace(s, cs[0], '_'), cs[1..])
  }

  /** Reference definition: every unsafe character becomes `_`, in one pass. */
  function Scrub(s: string): string {
    seq(|s|, i requires 0 <= i < |s| => if Unsafe(s[i]) then '_' else s[i])
  }

  /** Python slicing `s[:n]`. */
  function Prefix(s: string, n: nat): string {
    if |s| <= n then s else s[..n]
  }

  /** The shortening step: at most `MaxNameLength` characters of the stem,
      then the extension, split as `os.path.splitext` splits. */
  function Shorten(s: string): string {
    var sp := SplitExt(s);
    Prefix(sp.stem, MaxNameLength) + sp.ext
  }

  /** `sanitize_filename`: the replacement loop, then shortening when the
      result is longer than `MaxNameLength`. Equal to the one-pass reference. */
  function Sanitize(name: string): (r: string)
    ensures r == if |name| <= MaxNameLength then Scrub(name) else Shorten(Scrub(name))
  {
    var replaced := Replace(ReplaceEach(name, InvalidChars), ' ', '_');
    ReplaceEachIsScrub(name);
    if |replaced| > MaxNameLength then Shorten(replaced) else replaced
  }

  /** No invalid character and no space survives. */
  lemma SanitizeSafe(name: string)
    ensures forall i :: 0 <= i < |Sanitize(name)| ==> !Unsafe(Sanitize(name)[i])
  {
    var s := Scrub(name);
    assert !Unsafe('_');
    assert forall j :: 0 <= j < |s| ==> !Unsafe(s[j]);
    if |name| > MaxNameLength {
      ShortenKeepsCharacters(s);
      var r := Shorten(s);
      assert Sanitize(name) == r;
      forall i | 0 <= i < |r| ensures !Unsafe(r[i]) {
        var j :| 0 <= j < |s| && s[j] == r[i];
      }
    }
  }

  /** A name of at most `MaxNameLength` characters keeps its length; each
      character is unchanged, or `_` exactly where it was unsafe. */
  lemma SanitizeShort(name: string)
    requires |name| <= MaxNameLength
    ensures |Sanitize(name)| == |name|
    ensures forall i :: 0 <= i < |name| ==>
              Sanitize(name)[i] == (if Unsafe(name[i]) then '_' else name[i])
  {
  }

  /** A longer name keeps at most `MaxNameLength` characters of its stem,
      then its whole extension. */
  lemma SanitizeLong(name: string)
    requires |name| > MaxNameLength
    ensures var sp := SplitExt(Scrub(name));
            && Sanitize(name) == Prefix(sp.stem, MaxNameLength) + sp.ext
            && |Sanitize(name)| <= MaxNameLength + |sp.ext|
  {
  }

  /** The replacement loop followed by the space replacement is the one-pass scrub. */
  lemma ReplaceEachIsScrub(s: string)
    ensures Replace(ReplaceEach(s, InvalidChars), ' ', '_') == Scrub(s)
  {
    ReplaceEachPointwise(s, InvalidChars);
  }

  lemma {:induction false} ReplaceEachPointwise(s: string, cs: string)
    requires '_' !in cs
    ensures ReplaceEach(s, cs) == seq(|s|, i requires 0 <= i < |s| => if s[i] in cs then '_' else s[i])
    decreases |cs|
  {
    if |cs| > 0 {
      var t := Replace(s, cs[0], '_');
      ReplaceEachPointwise(t, cs[1..]);
      forall i | 0 <= i < |s|
        ensures (if t[i] in cs[1..] then '_' else t[i]) == (if s[i] in cs then '_' else s[i])
      {
        assert s[i] in cs <==> s[i] == cs[0] || s[i] in cs[1..] by {
          assert cs == [cs[0]] + cs[1..];
        }
      }
    }
  }

  /** Every character of a shortened name is a character of the input. */
  lemma ShortenKeepsCharacters(s: string)
    ensures |Shorten(s)| <= |s|
    ensures forall i :: 0 <= i < |Shorten(s)| ==> Shorten(s)[i] in s
  {
    var sp := SplitExt(s);
    var p := Prefix(sp.stem, MaxNameLength);
    var r := p + sp.ext;
    forall i | 0 <= i < |r| ensures r[i] in s {
      if i < |p| {
        assert r[i] == s[i];
      } else {
        assert r[i] == s[|sp.stem| + i - |p|];
      }
    }
  }

  /** A name without unsafe characters scrubs to itself. */
  lemma ScrubSafe(s: string)
    requires forall i :: 0 <= i < |s| ==> !Unsafe(s[i])
    ensures Scrub(s) == s
  {
  }

  /** The one family of names on which sanitizing twice differs from once:
      the shortened stem is all dots, so a second `splitext` no longer sees
      an extension and cuts it off. */
  predicate DotTrap(name: string) {
    var sp := SplitExt(Scrub(name));
    && sp.ext != []
    && |sp.stem| >= MaxNameLength
    && forall i :: 0 <= i < MaxNameLength ==> sp.stem[i] == '.'
  }

  /** Sanitizing an already sanitized name changes nothing, except on `DotTrap`. */
  lemma SanitizeIdempotent(name: string)
    ensures Sanitize(Sanitize(name)) == Sanitize(name) <==> !DotTrap(name)
  {
    var sp := SplitExt(Scrub(name));
    if |name| <= MaxNameLength {
      IdempotentShort(name);
    } else if sp.ext == [] || |sp.stem| <= MaxNameLength {
      IdempotentWithinLimit(name);
    } else {
      IdempotentBeyondLimit(name);
    }
  }

  lemma IdempotentShort(name: string)
    requires |name| <= MaxNameLength
    ensures Sanitize(Sanitize(name)) == Sanitize(name) && !DotTrap(name)
  {
    var s := Scrub(name);
    assert !Unsafe('_');
    assert forall i :: 0 <= i < |s| ==> !Unsafe(s[i]);
    ScrubSafe(s);
    var sp := SplitExt(s);
    assert |sp.stem| + |sp.ext| == |name|;
  }

  lemma IdempotentWithinLimit(name: string)
    requires |name| > MaxNameLength
    requires var sp := SplitExt(Scrub(name)); sp.ext == [] || |sp.stem| <= MaxNameLength
    ensures Sanitize(Sanitize(name)) == Sanitize(name) && !DotTrap(name)
  {
    var s := Scrub(name);
    assert !Unsafe('_');
    assert forall i :: 0 <= i < |s| ==> !Unsafe(s[i]);
    ShortenWithinLimit(s);
    assert Sanitize(name) == Shorten(s);
  }

  lemma IdempotentBeyondLimit(name: string)
    requires |name| > MaxNameLength
    requires var sp := SplitExt(Scrub(name)); sp.ext != [] && |sp.stem| > MaxNameLength
    ensures Sanitize(Sanitize(name)) == Sanitize(name) <==> !DotTrap(name)
  {
    var s := Scrub(name);
    assert !Unsafe('_');
    assert forall i :: 0 <= i < |s| ==> !Unsafe(s[i]);
    ShortenBeyondLimit(s);
    var t := Shorten(s);
    assert Sanitize(name) == t;
    assert Sanitize(t) == Shorten(t);
  }

  /** Shortening leaves a fixed point when the stem already fits, or when
      there is no extension; and then the stem cannot be a dot trap. */
  lemma ShortenWithinLimit(s: string)
    requires |s| > MaxNameLength
    requires forall i :: 0 <= i < |s| ==> !Unsafe(s[i])
    requires var sp := SplitExt(s); sp.ext == [] || |sp.stem| <= MaxNameLength
    ensures var t := Shorten(s); Scrub(t) == t && (|t| > MaxNameLength ==> Shorten(t) == t)
    ensures var sp := SplitExt(s);
            !(sp.ext != [] && |sp.stem| >= MaxNameLength && forall i :: 0 <= i < MaxNameLength ==> sp.stem[i] == '.')
  {
    var sp := SplitExt(s);
    if sp.ext == [] {
      assert Shorten(s) == s[..MaxNameLength];
    } else {
      assert Shorten(s) == s;
      if |sp.stem| == MaxNameLength {
        assert ExtensionAt(s, |sp.stem|);
        var i :| 0 <= i < |sp.stem| && s[i] != '.' && s[i] != '/' && forall j :: i < j < |sp.stem| ==> s[j] != '/';
        assert sp.stem[i] != '.';
      }
    }
    ScrubSafe(Shorten(s));
  }

  /** When the stem is cut, shortening again is a fixed point exactly when the
      kept part of the stem is not all dots. */
  lemma ShortenBeyondLimit(s: string)
    requires forall i :: 0 <= i < |s| ==> !Unsafe(s[i])
    requires var sp := SplitExt(s); sp.ext != [] && |sp.stem| > MaxNameLength
    ensures var t := Shorten(s);
            && Scrub(t) == t && |t| > MaxNameLength
            && (Shorten(t) == t <==> !forall i :: 0 <= i < MaxNameLength ==> SplitExt(s).stem[i] == '.')
  {
    var sp := SplitExt(s);
    var t := sp.stem[..MaxNameLength] + sp.ext;
    assert Shorten(s) == t;
    ShortenKeepsCharacters(s);
    ScrubSafe(t);
    if forall i :: 0 <= i < MaxNameLength ==> sp.stem[i] == '.' {
      ShortenDotStem(s);
    } else {
      ShortenStem(s);
    }
  }

  /** A kept stem of dots loses the extension on a second shortening. */
  lemma ShortenDotStem(s: string)
    requires var sp := SplitExt(s); sp.ext != [] && |sp.stem| > MaxNameLength
    requires forall i :: 0 <= i < MaxNameLength ==> SplitExt(s).stem[i] == '.'
    ensures Shorten(Shorten(s)) != Shorten(s)
  {
    var sp := SplitExt(s);
    var head := sp.stem[..MaxNameLength];
    var t := head + sp.ext;
    assert Shorten(s) == t;
    ExtensionShape(s);
    NoExtensionAfterDots(head, sp.ext);
    assert |Shorten(t)| == MaxNameLength < |t|;
  }

  /** A kept stem with a non-dot keeps the extension, so a second
      shortening changes nothing. */
  lemma ShortenStem(s: string)
    requires forall i :: 0 <= i < |s| ==> !Unsafe(s[i])
    requires var sp := SplitExt(s); sp.ext != [] && |sp.stem| > MaxNameLength
    requires exists i :: 0 <= i < MaxNameLength && SplitExt(s).stem[i] != '.'
    ensures Shorten(Shorten(s)) == Shorten(s)
  {
    var sp := SplitExt(s);
    var head := sp.stem[..MaxNameLength];
    var t := head + sp.ext;
    assert Shorten(s) == t;
    ExtensionShape(s);
    var i :| 0 <= i < MaxNameLength && sp.stem[i] != '.';
    assert head[i] != '.';
    KeptStemHasNoSeparator(s, head);
    ExtensionAfterStem(head, sp.ext, i);
    SplitExtUnique(t, |head|);
    assert t[..|head|] == head && t[|head|..] == sp.ext;
  }

  /** An extension is a dot followed by neither dots nor separators. */
  lemma ExtensionShape(s: string)
    requires SplitExt(s).ext != []
    ensures var ext := SplitExt(s).ext;
            ext[0] == '.' && forall j :: 0 < j < |ext| ==> ext[j] != '.' && ext[j] != '/'
  {
    var sp := SplitExt(s);
    assert ExtensionAt(s, |sp.stem|);
    forall j | 0 <= j < |sp.ext| ensures sp.ext[j] == s[|sp.stem| + j] {
    }
  }

  /** A prefix of the stem of a name without separators has none. */
  lemma KeptStemHasNoSeparator(s: string, head: string)
    requires forall i :: 0 <= i < |s| ==> !Unsafe(s[i])
    requires head <= s
    ensures '/' !in head
  {
    forall j | 0 <= j < |head| ensures head[j] != '/' {
      assert head[j] == s[j];
      assert '/' in InvalidChars;
    }
  }

  /** `head + ext` has the extension `ext` when `head` holds a safe non-dot. */
  lemma ExtensionAfterStem(head: string, ext: string, i: nat)
    requires i < |head| && head[i] != '.' && head[i] != '/' && '/' !in head
    requires |ext| > 0 && ext[0] == '.'
    requires forall j :: 0 < j < |ext| ==> ext[j] != '.' && ext[j] != '/'
    ensures ExtensionAt(head + ext, |head|)
  {
    var t := head + ext;
    assert t[i] == head[i];
    forall j | i < j < |head| ensures t[j] != '/' {
      assert t[j] == head[j];
    }
    forall j | |head| < j < |t| ensures t[j] != '.' && t[j] != '/' {
      assert t[j] == ext[j - |head|];
    }
  }

  /** `head + ext` has no extension when `head` is all dots. */
  lemma NoExtensionAfterDots(head: string, ext: string)
    requires forall i :: 0 <= i < |head| ==> head[i] == '.'
    requires |ext| > 0 && ext[0] == '.'
    requires forall j :: 0 < j < |ext| ==> ext[j] != '.' && ext[j] != '/'
    ensures SplitExt(head + ext) == Split(head + ext, "")
  {
    var t := head + ext;
    forall d | ExtensionAt(t, d) ensures false {
    }
  }

  /** A concrete name on which `sanitize_filename` is not idempotent. */
  lemma SanitizeNotIdempotentExample()
    ensures var name := seq(MaxNameLength, _ => '.') + "a.png";
            Sanitize(Sanitize(name)) != Sanitize(name)
  {
    var name := seq(MaxNameLength, _ => '.') + "a.png";
    ExampleIsDotTrap(name);
    SanitizeIdempotent(name);
  }

  lemma ExampleIsDotTrap(name: string)
    requires name == seq(MaxNameLength, _ => '.') + "a.png"
    ensures DotTrap(name)
  {
    assert Scrub(name) == name by {
      forall i | 0 <= i < |name| ensures !Unsafe(name[i]) {
        assert name[i] == '.' || name[i] in "apng";
      }
      ScrubSafe(name);
    }
    var stem := seq(MaxNameLength, _ => '.') + "a";
    assert name == stem + ".png";
    ExtensionAfterStem(stem, ".png", MaxNameLength);
    SplitExtUnique(name, |stem|);
    assert name[..|stem|] == stem;
  }

  /** The directory name `create_download_directory` builds. `info` is either
      a `getById` response holding a `collection` object, or any other value,
      which is used as the identifier itself. */
  function DirectoryName(info: Json, host: Host): (r: Outcome<string>)
    requires !info.JNull?
    ensures !(info.JObj? && HasKey(info.members, "collection")) ==> r == Returns(Str(info, host))
    ensures info.JObj? && HasKey(info.members, "collection") ==>
              var c := Get(info.members, "collection");
              (r.Raises? <==> !c.JObj? || (Truthy(Get(c.members, "name")) && !Get(c.members, "name").JStr?))
    ensures info.JObj? && HasKey(info.members, "collection") && r.Returns? ==>
              var c := Get(info.members, "collection");
              var id := Str(Get(c.members, "id"), host);
              var name := Get(c.members, "name");
              r.value == if Truthy(name) then id + "-" + Sanitize(name.s) else id
  {
    if info.JObj? && HasKey(info.members, "collection") then
      var c := GetOr(info.members, "collection", JObj([]));
      if !c.JObj? then Raises
      else
        var name := Get(c.members, "name");
        var id := Get(c.members, "id");
        if Truthy(name) then
          if name.JStr? then Returns(Str(id, host) + "-" + Sanitize(name.s)) else Raises
        else Returns(Str(id, host))
    else Returns(Str(info, host))
  }

  /** A named collection's directory is one path component when its
      identifier renders without a separator: the sanitized name has none. */
  lemma DirectoryNameIsOneComponent(info: Json, host: Host)
    requires !info.JNull?
    requires info.JObj? && HasKey(info.members, "collection")
    requires DirectoryName(info, host).Returns?
    requires '/' !in Str(Get(Get(info.members, "collection").members, "id"), host)
    ensures '/' !in DirectoryName(info, host).value
  {
    var c := Get(info.members, "collection");
    var name := Get(c.members, "name");
    if Truthy(name) {
      SanitizeSafe(name.s);
      var sn := Sanitize(name.s);
      assert '/' !in sn by {
        forall i | 0 <= i < |sn| ensures sn[i] != '/' {
          assert !Unsafe(sn[i]);
        }
      }
    }
  }
}
