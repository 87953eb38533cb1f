/**
 * Classification of the `src` property: which native image load a value
 * selects. The tests are made in a fixed order, and the first that holds wins.
 */
module Source {
  import Native

  /** A `src` value: a string, or an object (an image source) carrying an `ios` image. */
  datatype Src = Str(s: string) | Obj(ios: Native.UIImage?)

  /** What a `src` value asks the native side to do. */
  datatype Load =
    | Named(name: string)          // UIImage.imageNamed(name): a bundled resource
    | Handle(ios: Native.UIImage?) // an already decoded image, used as it is
    | Fetch(url: string)           // an asynchronous download; nothing changes now
    | File(path: string)           // UIImage.imageWithContentsOfFile(path)

  /**
   * The foreign calls `src` dispatch depends on: the application folder
   * (knownFolders.currentApp().path), path.join, and the two decoders.
   */
  datatype Platform = Platform(
    currentAppPath: string,
    join: (string, string) -> string,
    imageNamed: string -> Native.UIImage?,
    imageWithContentsOfFile: string -> Native.UIImage?)

  const ResourcePrefix: string := "res://"
  const HttpPrefix: string := "http"
  const AppPrefix: string := "~"

  /** `pat` occurs in `s` at index `i`. */
  predicate OccursAt(s: string, pat: string, i: nat) {
    i + |pat| <= |s| && s[i..i + |pat|] == pat
  }

  /**
   * JavaScript's `s.replace(pat, '')` for a string pattern: the first
   * occurrence of `pat` is removed; a string without one is returned as it is.
   */
  function RemoveFirst(s: string, pat: string): (r: string)
    ensures |r| <= |s|
    decreases |s|
  {
    if pat <= s then s[|pat|..]
    else if s == [] then s
    else [s[0]] + RemoveFirst(s[1..], pat)
  }

  /** An occurrence in the tail is an occurrence one place later in the whole string. */
  lemma OccursInTail(s: string, pat: string, j: nat)
    requires s != []
    ensures OccursAt(s[1..], pat, j) <==> OccursAt(s, pat, j + 1)
  {
  }

  /** Removing the first occurrence at index `i` (none earlier) cuts exactly those characters out. */
  lemma {:induction false} RemoveFirstAt(s: string, pat: string, i: nat)
    requires OccursAt(s, pat, i)
    requires forall j: nat :: j < i ==> !OccursAt(s, pat, j)
    ensures RemoveFirst(s, pat) == s[..i] + s[i + |pat|..]
    decreases i
  {
    if i == 0 {
      assert pat <= s;
    } else {
      assert !OccursAt(s, pat, 0);
      var t := s[1..];
      forall j: nat | j < i - 1 ensures !OccursAt(t, pat, j) {
        OccursInTail(s, pat, j);
      }
      OccursInTail(s, pat, i - 1);
      RemoveFirstAt(t, pat, i - 1);
      calc {
        RemoveFirst(s, pat);
        [s[0]] + RemoveFirst(t, pat);
        [s[0]] + (t[..i - 1] + t[i - 1 + |pat|..]);
        { assert [s[0]] + t[..i - 1] == s[..i]; assert t[i - 1 + |pat|..] == s[i + |pat|..]; }
        s[..i] + s[i + |pat|..];
      }
    }
  }

  /** A string in which `pat` does not occur is left unchanged. */
  lemma {:induction false} RemoveFirstAbsent(s: string, pat: string)
    requires forall j: nat :: !OccursAt(s, pat, j)
    ensures RemoveFirst(s, pat) == s
    decreases |s|
  {
    assert !OccursAt(s, pat, 0);
    if s != [] {
      forall j: nat ensures !OccursAt(s[1..], pat, j) {
        OccursInTail(s, pat, j);
      }
      RemoveFirstAbsent(s[1..], pat);
    }
  }

  /** For a string that starts with `pat`, removing the first `pat` leaves the rest after the prefix. */
  lemma RemoveFirstPrefix(s: string, pat: string)
    requires pat <= s
    ensures pat + RemoveFirst(s, pat) == s
  {
  }

  /**
   * The `src` setter's dispatch: `res://` strings name a resource, objects hand
   * over their `ios` image, `http` strings are fetched, `~` strings are joined
   * to the application folder, and every other string is a file path.
   */
  function Classify(src: Src, p: Platform): (l: Load)
    ensures l.Handle? <==> src.Obj?
    ensures l.Handle? ==> l.ios == src.ios
    ensures l.Fetch? ==> src == Str(l.url) && HttpPrefix <= l.url
    ensures l.Named? ==> src == Str(ResourcePrefix + l.name)
  {
    if src.Str? && ResourcePrefix <= src.s then Named(RemoveFirst(src.s, ResourcePrefix))
    else if src.Obj? then Handle(src.ios)
    else if HttpPrefix <= src.s then Fetch(src.s)
    else if AppPrefix <= src.s then File(p.join(p.currentAppPath, RemoveFirst(src.s, AppPrefix)))
    else File(src.s)
  }

  /** The three prefixes start with different characters, so a string has at most one of them. */
  lemma PrefixesExclusive(s: string)
    ensures HttpPrefix <= s ==> !(ResourcePrefix <= s) && !(AppPrefix <= s)
    ensures AppPrefix <= s ==> !(ResourcePrefix <= s)
  {
    if HttpPrefix <= s { assert s[0] == HttpPrefix[0]; }
    if AppPrefix <= s { assert s[0] == AppPrefix[0]; }
  }

  /** A `res://` string names the resource after the prefix; prefix and name give back the string. */
  lemma ClassifyResource(s: string, p: Platform)
    requires ResourcePrefix <= s
    ensures Classify(Str(s), p) == Named(s[|ResourcePrefix|..])
    ensures ResourcePrefix + Classify(Str(s), p).name == s
  {
  }

  /** An object always hands over its `ios` image. */
  lemma ClassifyObject(ios: Native.UIImage?, p: Platform)
    ensures Classify(Obj(ios), p) == Handle(ios)
  {
  }

  /** An `http` string is fetched as it is. */
  lemma ClassifyRemote(s: string, p: Platform)
    requires HttpPrefix <= s
    ensures Classify(Str(s), p) == Fetch(s)
  {
    PrefixesExclusive(s);
  }

  /** A `~` string is the remainder after the tilde, joined to the application folder. */
  lemma ClassifyAppRelative(s: string, p: Platform)
    requires AppPrefix <= s
    ensures Classify(Str(s), p) == File(p.join(p.currentAppPath, s[1..]))
  {
    PrefixesExclusive(s);
  }

  /** Any other string is loaded as a file path, unchanged. */
  lemma ClassifyAbsolute(s: string, p: Platform)
    requires !(ResourcePrefix <= s) && !(HttpPrefix <= s) && !(AppPrefix <= s)
    ensures Classify(Str(s), p) == File(s)
  {
  }

  /**
   * Each kind of load arises from exactly the `src` values the ordered tests
   * send to it; in particular only objects give a Handle and only `http`
   * strings give a Fetch.
   */
  lemma ClassifyKinds(src: Src, p: Platform)
    ensures Classify(src, p).Named? <==> src.Str? && ResourcePrefix <= src.s
    ensures Classify(src, p).Handle? <==> src.Obj?
    ensures Classify(src, p).Fetch? <==> src.Str? && HttpPrefix <= src.s
    ensures Classify(src, p).File? <==> src.Str? && !(ResourcePrefix <= src.s) && !(HttpPrefix <= src.s)
  {
    if src.Str? {
      PrefixesExclusive(src.s);
    }
  }
}
