/**
 * The pure helpers and list routines of src/classes/Functions.ts:
 * permission tests, user tags and avatar URLs, `deepEquals`/`deepCopy`,
 * `titleCase`, query-parameter extraction, hashtag stripping, favourites,
 * the premium short-circuit and link-data construction.
 */
module Functions {
  import opened Wrappers
  import opened Bits
  import opened Text
  import opened Json

  // ---------------------------------------------------------------- permissions

  /**
   * A permission as the bot names it: a flag name of `PermissionFlagsBits`
   * (every one of which is a single bit, given here by its index) or a raw BigInt.
   */
  datatype Permission = Named(bit: nat) | Raw(value: nat)

  /** `PermissionFlagsBits.ManageMessages` is bit 13. */
  const ManageMessages: Permission := Named(13)

  function FlagValue(p: Permission): nat
  {
    match p
    case Named(b) => Pow2(b)
    case Raw(v) => v
  }

  /**
   * `hasPermission(permission, permissions)`. An absent or empty permissions
   * string grants everything; otherwise every bit of the permission must be set
   * in it. `None` is the SyntaxError `BigInt` throws on a non-numeric string.
   */
  function HasPermission(p: Permission, permissions: Option<string>): (r: Option<bool>)
    ensures permissions.None? || permissions == Some("") ==> r == Some(true)
    ensures permissions.Some? && permissions.value != "" ==>
              (r.None? <==> !IsDigits(permissions.value))
    ensures permissions.Some? && permissions.value != "" && IsDigits(permissions.value) ==>
              (r == Some(true) <==>
                 forall i: nat :: TestBit(FlagValue(p), i) ==> TestBit(ParseDecimal(permissions.value), i))
  {
    match permissions
    case None => Some(true)
    case Some(s) =>
      if s == "" then Some(true)
      else if !IsDigits(s) then None
      else
        AndNotZero(FlagValue(p), ParseDecimal(s));
        Some(AndNot(FlagValue(p), ParseDecimal(s)) == 0)
  }

  /** For a named flag, holding the permission is exactly having its bit set. */
  lemma HasNamedPermission(bit: nat, permissions: string)
    requires permissions != "" && IsDigits(permissions)
    ensures HasPermission(Named(bit), Some(permissions)) == Some(TestBit(ParseDecimal(permissions), bit))
  {
    forall i: nat
      ensures TestBit(Pow2(bit), i) <==> i == bit
    {
      Pow2Bits(bit, i);
    }
  }

  // ---------------------------------------------------------------- user display

  /** `userTag`: the new-style "0" discriminator is left out, any other is appended after '#'. */
  function UserTag(username: string, discriminator: string): (r: string)
    ensures r == username <==> discriminator == "0"
    ensures discriminator != "0" ==>
              StartsWith(r, username) && r[|username|] == '#' && r[|username| + 1..] == discriminator
  {
    if discriminator == "0" then username else username + "#" + discriminator
  }

  const CdnBase: string := "https://cdn.discordapp.com/"

  /**
   * `Number(discriminator) % 5` rendered as text: a string of digits denotes its
   * value (the empty string 0); anything else is NaN.
   */
  function DefaultAvatarIndex(discriminator: string): (r: string)
    ensures IsDigits(discriminator) ==> |r| == 1 && '0' <= r[0] <= '4'
    ensures !IsDigits(discriminator) ==> r == "NaN"
  {
    if IsDigits(discriminator) then DecimalString(ParseDecimal(discriminator) % 5) else "NaN"
  }

  /** `avatarURL`, as written: the animated test looks for the prefix "_a". */
  function AvatarURL(id: string, avatar: Option<string>, discriminator: string): (r: string)
    ensures StartsWith(r, CdnBase)
    ensures avatar.Some? && avatar.value != "" ==>
              r == CdnBase + "avatars/" + id + "/" + avatar.value + "." +
                   (if StartsWith(avatar.value, "_a") then "gif" else "png")
    ensures avatar.None? || avatar == Some("") ==>
              r == CdnBase + "/embed/avatars/" + DefaultAvatarIndex(discriminator) + ".png"
  {
    AvatarURLWith("_a", id, avatar, discriminator)
  }

  /** `avatarURL` with the animated-hash prefix as a parameter. */
  function AvatarURLWith(animatedPrefix: string, id: string, avatar: Option<string>, discriminator: string): string
  {
    CdnBase +
    (match avatar
     case Some(h) =>
       if h != "" then "avatars/" + id + "/" + h + "." + (if StartsWith(h, animatedPrefix) then "gif" else "png")
       else "/embed/avatars/" + DefaultAvatarIndex(discriminator) + ".png"
     case None => "/embed/avatars/" + DefaultAvatarIndex(discriminator) + ".png")
  }

  /** Discord marks animated avatar hashes with the prefix "a_". */
  predicate IsAnimatedHash(h: string)
  {
    StartsWith(h, "a_")
  }

  /** `avatarURL` as evidently intended: animated ("a_") hashes get the gif rendition. */
  function AvatarURLIntended(id: string, avatar: Option<string>, discriminator: string): (r: string)
    ensures avatar.Some? && avatar.value != "" ==>
              (EndsWithGif(r) <==> IsAnimatedHash(avatar.value))
  {
    match avatar
    case Some(h) =>
      if h != "" then
        var ext := if StartsWith(h, "a_") then "gif" else "png";
        ExtensionSuffix(CdnBase + "avatars/" + id + "/" + h, ext);
        AvatarURLWith("a_", id, avatar, discriminator)
      else AvatarURLWith("a_", id, avatar, discriminator)
    case None => AvatarURLWith("a_", id, avatar, discriminator)
  }

  predicate EndsWithGif(r: string)
  {
    |r| >= 4 && r[|r| - 4..] == ".gif"
  }

  lemma ExtensionSuffix(p: string, ext: string)
    requires ext == "gif" || ext == "png"
    ensures EndsWithGif(p + "." + ext) <==> ext == "gif"
  {
    var r := p + "." + ext;
    assert r[|r| - 4..] == "." + ext;
    assert ("." + ext)[1] == ext[0];
  }

  /** As written, an animated avatar hash is rendered as a png. */
  lemma AnimatedAvatarGetsPng()
    ensures IsAnimatedHash("a_1f2e")
    ensures !EndsWithGif(AvatarURL("80351110224678912", Some("a_1f2e"), "0"))
    ensures EndsWithGif(AvatarURLIntended("80351110224678912", Some("a_1f2e"), "0"))
  {
    var r := AvatarURL("80351110224678912", Some("a_1f2e"), "0");
    assert "a_1f2e"[..2][0] == 'a';
    assert r[|r| - 4..] == ".png";
  }

  // ---------------------------------------------------------------- deepEquals / deepCopy

  /**
   * `deepEquals(a, b, ignore)`: the same `typeof` and array-ness; arrays of equal
   * length compare element by element; objects compare on the keys of `a` only,
   * skipping ignored keys at every depth; anything else compares with `===`.
   * `None` is the TypeError of `key in null`.
   */
  function DeepEquals(a: Json, b: Json, ignore: seq<string>): Option<bool>
    decreases a, 1
  {
    if TypeOf(a) != TypeOf(b) || a.JArr? != b.JArr? then Some(false)
    else if a.JArr? then
      if |a.items| != |b.items| then Some(false) else ItemsEqual(a, b, 0, ignore)
    else if a.JObj? then KeysEqual(a, b, 0, ignore)
    else Some(a == b)
  }

  /** `a.every((x, i) => deepEquals(x, b[i]))` from index i on. */
  function ItemsEqual(a: Json, b: Json, i: nat, ignore: seq<string>): Option<bool>
    requires a.JArr? && b.JArr? && |a.items| == |b.items| && i <= |a.items|
    decreases a, 0, |a.items| - i
  {
    if i == |a.items| then Some(true)
    else
      match DeepEquals(a.items[i], b.items[i], ignore)
      case None => None
      case Some(false) => Some(false)
      case Some(true) => ItemsEqual(a, b, i + 1, ignore)
  }

  /** `Object.keys(a).every(key => ignore.includes(key) || (key in b && deepEquals(...)))` from key i on. */
  function KeysEqual(a: Json, b: Json, i: nat, ignore: seq<string>): Option<bool>
    requires a.JObj? && i <= |a.fields|
    decreases a, 0, |a.fields| - i
  {
    if i == |a.fields| then Some(true)
    else
      var key := a.fields[i].0;
      if key in ignore then KeysEqual(a, b, i + 1, ignore)
      else if !b.JObj? then (if b.JNull? then None else Some(false))
      else
        match Lookup(b.fields, key)
        case None => Some(false)
        case Some(w) =>
          match DeepEquals(a.fields[i].1, w, ignore)
          case None => None
          case Some(false) => Some(false)
          case Some(true) => KeysEqual(a, b, i + 1, ignore)
  }

  /** Every well-formed value deep-equals itself. */
  lemma {:induction false} DeepEqualsReflexive(a: Json, ignore: seq<string>)
    requires WellFormed(a)
    ensures DeepEquals(a, a, ignore) == Some(true)
    decreases a, 1
  {
    if a.JArr? {
      ItemsReflexive(a, 0, ignore);
    } else if a.JObj? {
      KeysReflexive(a, 0, ignore);
    }
  }

  lemma {:induction false} ItemsReflexive(a: Json, i: nat, ignore: seq<string>)
    requires a.JArr? && WellFormed(a) && i <= |a.items|
    ensures ItemsEqual(a, a, i, ignore) == Some(true)
    decreases a, 0, |a.items| - i
  {
    if i < |a.items| {
      DeepEqualsReflexive(a.items[i], ignore);
      ItemsReflexive(a, i + 1, ignore);
    }
  }

  lemma {:induction false} KeysReflexive(a: Json, i: nat, ignore: seq<string>)
    requires a.JObj? && WellFormed(a) && i <= |a.fields|
    ensures KeysEqual(a, a, i, ignore) == Some(true)
    decreases a, 0, |a.fields| - i
  {
    if i < |a.fields| {
      if a.fields[i].0 !in ignore {
        LookupDistinct(a.fields, i);
        DeepEqualsReflexive(a.fields[i].1, ignore);
      }
      KeysReflexive(a, i + 1, ignore);
    }
  }

  /** Only the first object's keys are checked, so `deepEquals` is not symmetric. */
  lemma DeepEqualsAsymmetric()
    ensures DeepEquals(JObj([]), JObj([("nsfw", JBool(false))]), []) == Some(true)
    ensures DeepEquals(JObj([("nsfw", JBool(false))]), JObj([]), []) == Some(false)
  {
  }

  /** An ignored key is skipped however its values differ. */
  lemma DeepEqualsSkipsIgnored(k: string, x: Json, y: Json)
    ensures DeepEquals(JObj([(k, x)]), JObj([(k, y)]), [k]) == Some(true)
  {
    var a, b := JObj([(k, x)]), JObj([(k, y)]);
    assert KeysEqual(a, b, 1, [k]) == Some(true);
    assert KeysEqual(a, b, 0, [k]) == Some(true);
  }

  /** `deepCopy`: rebuilds arrays and objects, field by field, and returns primitives as they are. */
  function DeepCopy(j: Json): (r: Json)
    ensures r == j
    decreases j
  {
    match j
    case JArr(xs) =>
      var ys := seq(|xs|, i requires 0 <= i < |xs| => DeepCopy(xs[i]));
      assert ys == xs;
      JArr(ys)
    case JObj(fs) =>
      var gs := seq(|fs|, i requires 0 <= i < |fs| => (fs[i].0, DeepCopy(fs[i].1)));
      assert gs == fs;
      JObj(gs)
    case _ => j
  }

  /** A deep copy deep-equals its original. */
  lemma DeepCopyDeepEquals(j: Json, ignore: seq<string>)
    requires WellFormed(j)
    ensures DeepEquals(j, DeepCopy(j), ignore) == Some(true)
  {
    DeepEqualsReflexive(j, ignore);
  }

  // ---------------------------------------------------------------- titleCase

  predicate IsLowerAscii(c: char) { 'a' <= c <= 'z' }
  predicate IsUpperAscii(c: char) { 'A' <= c <= 'Z' }

  /** `toLowerCase` on one character (ASCII letters only). */
  function ToLower(c: char): (r: char)
    ensures !IsUpperAscii(r)
    ensures IsUpperAscii(c) || r == c
  {
    if IsUpperAscii(c) then (c as int + 32) as char else c
  }

  /** `toUpperCase` on one character (ASCII letters only); it keeps the letter. */
  function ToUpper(c: char): (r: char)
    ensures !IsLowerAscii(r)
    ensures ToLower(r) == ToLower(c)
  {
    if IsLowerAscii(c) then (c as int - 32) as char else c
  }

  /** `titleCase`: upper-cases the first character and lower-cases the rest. */
  function TitleCase(s: string): (r: string)
    ensures |r| == |s|
    ensures forall i :: 0 <= i < |s| ==> ToLower(r[i]) == ToLower(s[i])
    ensures |r| > 0 ==> !IsLowerAscii(r[0])
    ensures forall i :: 1 <= i < |r| ==> !IsUpperAscii(r[i])
  {
    if s == [] then []
    else [ToUpper(s[0])] + seq(|s| - 1, i requires 0 <= i < |s| - 1 => ToLower(s[i + 1]))
  }

  /** Title-casing twice is title-casing once. */
  lemma TitleCaseIdempotent(s: string)
    ensures TitleCase(TitleCase(s)) == TitleCase(s)
  {
    var r := TitleCase(s);
    if s != [] {
      assert TitleCase(r)[0] == r[0];
      forall i | 1 <= i < |r| ensures TitleCase(r)[i] == r[i] {
        assert TitleCase(r)[i] == ToLower(r[i]);
      }
    }
  }

  // ---------------------------------------------------------------- getQueryParamValue

  /**
   * The regular expression `[?&]name=([^&]+)` matches at index i (the name is
   * taken literally).
   */
  predicate ParamAt(url: string, name: string, i: nat)
  {
    i + |name| + 2 < |url|
    && (url[i] == '?' || url[i] == '&')
    && url[i + 1..i + 1 + |name|] == name
    && url[i + 1 + |name|] == '='
    && url[i + 2 + |name|] != '&'
  }

  /** The longest prefix of s without '&' (the greedy `[^&]+`). */
  function RunWithoutAmp(s: string): (r: string)
    ensures StartsWith(s, r) && '&' !in r
    ensures |r| < |s| ==> s[|r|] == '&'
    ensures s != [] && s[0] != '&' ==> r != []
  {
    if s == [] || s[0] == '&' then [] else [s[0]] + RunWithoutAmp(s[1..])
  }

  /** The index of the leftmost match at or after index i, or -1. */
  function ParamIndexFrom(url: string, name: string, i: nat): (k: int)
    ensures k == -1 || (i <= k && ParamAt(url, name, k))
    ensures k == -1 ==> forall j: nat :: i <= j ==> !ParamAt(url, name, j)
    ensures k >= 0 ==> forall j: nat :: i <= j < k ==> !ParamAt(url, name, j)
    decreases |url| - i
  {
    if i + |name| + 2 >= |url| then -1
    else if ParamAt(url, name, i) then i
    else ParamIndexFrom(url, name, i + 1)
  }

  /**
   * `getQueryParamValue(url, name)`: the non-empty run of non-'&' characters
   * after the leftmost `?name=` or `&name=`, or null when there is none.
   */
  function GetQueryParamValue(url: string, name: string): (r: Option<string>)
    ensures r.None? <==> forall j: nat :: !ParamAt(url, name, j)
    ensures r.Some? ==> r.value != [] && '&' !in r.value
    ensures r.Some? ==> exists j: nat :: ParamAt(url, name, j)
                          && (forall k: nat :: k < j ==> !ParamAt(url, name, k))
                          && r.value == RunWithoutAmp(url[j + 2 + |name|..])
  {
    var k := ParamIndexFrom(url, name, 0);
    if k < 0 then None
    else
      var rest := url[k + 2 + |name|..];
      assert rest != [] && rest[0] == url[k + 2 + |name|] != '&';
      assert ParamAt(url, name, k) && forall j: nat :: j < k ==> !ParamAt(url, name, j);
      Some(RunWithoutAmp(rest))
  }

  // ---------------------------------------------------------------- cleanDescription

  /** One entry of a post's `text_extra`; `kind` 1 marks a hashtag. */
  datatype TextExtra = TextExtra(kind: int, start: int, end: int, hashtagName: string)

  datatype SmartDescription = SmartDescription(cleaned: string, raw: string, hashtags: seq<string>)

  /** The effect of one `text_extra` entry on the running cleaned text. */
  function CleanStep(description: string, cleaned: string, e: TextExtra): string
  {
    if e.kind == 1 then Trim(ReplaceFirst(cleaned, Substring(description, e.start, e.end), "")) else cleaned
  }

  /** The cleaned text after the given entries, processed in order. */
  function CleanedAfter(description: string, extras: seq<TextExtra>): string
    decreases |extras|
  {
    if extras == [] then description
    else CleanStep(description, CleanedAfter(description, extras[..|extras| - 1]), extras[|extras| - 1])
  }

  /** The names of the hashtag entries, in order. */
  function HashtagNames(extras: seq<TextExtra>): (r: seq<string>)
    ensures |r| <= |extras|
    decreases |extras|
  {
    if extras == [] then []
    else HashtagNames(extras[..|extras| - 1])
         + (if extras[|extras| - 1].kind == 1 then [extras[|extras| - 1].hashtagName] else [])
  }

  /**
   * `cleanDescription`: walks the entries once, removing each hashtag's original
   * text from the running result (first occurrence) and trimming after each removal.
   */
  method CleanDescription(description: string, extras: seq<TextExtra>) returns (r: SmartDescription)
    ensures r.raw == description
    ensures r.hashtags == HashtagNames(extras)
    ensures r.cleaned == CleanedAfter(description, extras)
  {
    var cleaned := description;
    var hashtags: seq<string> := [];
    var i := 0;
    while i < |extras|
      invariant 0 <= i <= |extras|
      invariant cleaned == CleanedAfter(description, extras[..i])
      invariant hashtags == HashtagNames(extras[..i])
    {
      var e := extras[i];
      assert extras[..i + 1][..i] == extras[..i];
      if e.kind == 1 {
        var hashtagText := Substring(description, e.start, e.end);
        cleaned := Trim(ReplaceFirst(cleaned, hashtagText, ""));
        hashtags := hashtags + [e.hashtagName];
      }
      i := i + 1;
    }
    assert extras[..i] == extras;
    r := SmartDescription(cleaned, description, hashtags);
  }

  /** Each hashtag entry contributes exactly its name, in order; other entries contribute nothing. */
  lemma {:induction false} HashtagNamesAppend(xs: seq<TextExtra>, ys: seq<TextExtra>)
    ensures HashtagNames(xs + ys) == HashtagNames(xs) + HashtagNames(ys)
    decreases |ys|
  {
    if ys == [] {
      assert xs + ys == xs;
    } else {
      var ys' := ys[..|ys| - 1];
      assert (xs + ys)[..|xs + ys| - 1] == xs + ys';
      HashtagNamesAppend(xs, ys');
    }
  }

  /** Removing hashtags never lengthens the description. */
  lemma {:induction false} CleanedNoLonger(description: string, extras: seq<TextExtra>)
    ensures |CleanedAfter(description, extras)| <= |description|
    decreases |extras|
  {
    if extras != [] {
      var prev := CleanedAfter(description, extras[..|extras| - 1]);
      CleanedNoLonger(description, extras[..|extras| - 1]);
      var e := extras[|extras| - 1];
      if e.kind == 1 {
        var removed := ReplaceFirst(prev, Substring(description, e.start, e.end), "");
        TrimmedEdges(removed);
      }
    }
  }

  /** Without hashtag entries the description is left as it is. */
  lemma {:induction false} CleanedWithoutHashtags(description: string, extras: seq<TextExtra>)
    requires forall i :: 0 <= i < |extras| ==> extras[i].kind != 1
    ensures CleanedAfter(description, extras) == description
    ensures HashtagNames(extras) == []
    decreases |extras|
  {
    if extras != [] {
      CleanedWithoutHashtags(description, extras[..|extras| - 1]);
    }
  }

  /** Once a hashtag has been removed, the cleaned text has no white space at its edges. */
  lemma {:induction false} CleanedIsTrimmed(description: string, extras: seq<TextExtra>, k: nat)
    requires k < |extras| && extras[k].kind == 1
    ensures var c := CleanedAfter(description, extras);
            c == [] || (!IsWhitespace(c[0]) && !IsWhitespace(c[|c| - 1]))
    decreases |extras|
  {
    var n := |extras| - 1;
    var e := extras[n];
    var prev := CleanedAfter(description, extras[..n]);
    assert CleanedAfter(description, extras) == CleanStep(description, prev, e);
    if e.kind == 1 {
      var removed := ReplaceFirst(prev, Substring(description, e.start, e.end), "");
      assert CleanStep(description, prev, e) == Trim(removed);
      TrimmedEdges(removed);
    } else {
      assert k < n && extras[..n][k] == extras[k];
      CleanedIsTrimmed(description, extras[..n], k);
    }
  }

  // ---------------------------------------------------------------- favourites

  /**
   * The stored account of a user: `favorites` is absent on accounts that never
   * saved one; `logUsageData` is the usage-data opt-in and `logs` the ids of
   * the embed logs recorded for the user (an absent list reads as empty).
   */
  class Account {
    var favorites: Option<seq<string>>
    var logUsageData: bool
    var logs: seq<string>

    constructor (favorites: Option<seq<string>>, logUsageData: bool, logs: seq<string>)
      ensures this.favorites == favorites && this.logUsageData == logUsageData && this.logs == logs
    {
      this.favorites := favorites;
      this.logUsageData := logUsageData;
      this.logs := logs;
    }
  }

  /** `true` or a returned (not thrown) `Error` with its message. */
  datatype Outcome = Done | Failed(message: string)

  const NoUser: string := "Failed to find user in database."

  /** `xs.filter(y => y !== x)`. */
  function Without(xs: seq<string>, x: string): (r: seq<string>)
    ensures x !in r
    ensures forall y :: y in r <==> y in xs && y != x
    ensures |r| <= |xs|
    ensures x !in xs ==> r == xs
  {
    if xs == [] then []
    else (if xs[0] == x then [] else [xs[0]]) + Without(xs[1..], x)
  }

  /**
   * `insertUserFavorite`: with no account the result is an error; an absent list
   * becomes `[id]`; an id not yet in the list is appended; an id already in it is
   * an error and the list is left alone.
   */
  method InsertUserFavorite(user: Account?, videoId: string) returns (r: Outcome)
    modifies user
    ensures user == null ==> r == Failed(NoUser)
    ensures user != null && old(user.favorites).None? ==>
              r == Done && user.favorites == Some([videoId])
    ensures user != null && old(user.favorites).Some? && videoId !in old(user.favorites).value ==>
              r == Done && user.favorites == Some(old(user.favorites).value + [videoId])
    ensures user != null && old(user.favorites).Some? && videoId in old(user.favorites).value ==>
              r == Failed("This video is already in your favorites.") && user.favorites == old(user.favorites)
    ensures user != null ==> user.logUsageData == old(user.logUsageData) && user.logs == old(user.logs)
  {
    if user == null {
      return Failed(NoUser);
    }
    match user.favorites
    case None =>
      user.favorites := Some([videoId]);
      r := Done;
    case Some(favs) =>
      if videoId !in favs {
        user.favorites := Some(favs + [videoId]);
        r := Done;
      } else {
        r := Failed("This video is already in your favorites.");
      }
  }

  /**
   * `removeUserFavorite`: with no account or no list the result is an error; an
   * id in the list is removed everywhere it occurs; an id not in it is an error.
   */
  method RemoveUserFavorite(user: Account?, videoId: string) returns (r: Outcome)
    modifies user
    ensures user == null ==> r == Failed(NoUser)
    ensures user != null && old(user.favorites).None? ==>
              r == Failed("You have no favorites to remove.") && user.favorites == old(user.favorites)
    ensures user != null && old(user.favorites).Some? && videoId in old(user.favorites).value ==>
              r == Done && user.favorites == Some(Without(old(user.favorites).value, videoId))
    ensures user != null && old(user.favorites).Some? && videoId !in old(user.favorites).value ==>
              r == Failed("This video is not in your favorites.") && user.favorites == old(user.favorites)
    ensures user != null ==> user.logUsageData == old(user.logUsageData) && user.logs == old(user.logs)
  {
    if user == null {
      return Failed(NoUser);
    }
    match user.favorites
    case None =>
      r := Failed("You have no favorites to remove.");
    case Some(favs) =>
      if videoId in favs {
        user.favorites := Some(Without(favs, videoId));
        r := Done;
      } else {
        r := Failed("This video is not in your favorites.");
      }
  }

  /** The list after `insertUserFavorite` succeeds on a list (absent = none yet). */
  function Inserted(favs: Option<seq<string>>, id: string): seq<string>
  {
    match favs
    case None => [id]
    case Some(xs) => xs + [id]
  }

  /** Adding a favourite that was not there and then removing it restores the list. */
  lemma {:induction false} InsertThenRemove(xs: seq<string>, id: string)
    requires id !in xs
    ensures id in Inserted(Some(xs), id)
    ensures Without(Inserted(Some(xs), id), id) == xs
    decreases |xs|
  {
    if xs != [] {
      assert (xs + [id])[1..] == xs[1..] + [id];
      InsertThenRemove(xs[1..], id);
    } else {
      assert Without([id], id) == [] + Without([], id);
    }
  }

  // ---------------------------------------------------------------- verifyPremium

  /** An entitlement as Discord reports it; type 8 is an application subscription. */
  datatype Entitlement = Entitlement(kind: int)

  /** What `getAccount` finds: no account, or an account with an optional premium flag. */
  datatype PremiumRecord = NoAccount | AccountFound(hasPremium: Option<bool>)

  /** The answer and whether the account store was consulted to reach it. */
  datatype PremiumCheck = PremiumCheck(premium: bool, lookedUp: bool)

  predicate HasSubscription(entitlements: seq<Entitlement>)
  {
    exists i :: 0 <= i < |entitlements| && entitlements[i].kind == 8
  }

  /** The type-8 entitlements, in order. */
  function Subscriptions(entitlements: seq<Entitlement>): (r: seq<Entitlement>)
    ensures |r| > 0 <==> HasSubscription(entitlements)
  {
    if entitlements == [] then []
    else (if entitlements[0].kind == 8 then [entitlements[0]] else []) + Subscriptions(entitlements[1..])
  }

  /**
   * `verifyPremium`: a subscription entitlement answers true before any account
   * lookup; otherwise the account's premium flag decides, and no account means false.
   */
  function VerifyPremium(entitlements: seq<Entitlement>, account: PremiumRecord): (r: PremiumCheck)
    ensures HasSubscription(entitlements) ==> r == PremiumCheck(true, false)
    ensures !HasSubscription(entitlements) ==>
              r.lookedUp && (r.premium <==> account == AccountFound(Some(true)))
  {
    if |Subscriptions(entitlements)| > 0 then PremiumCheck(true, false)
    else
      match account
      case NoAccount => PremiumCheck(false, true)
      case AccountFound(p) => PremiumCheck(p == Some(true), true)
  }

  // ---------------------------------------------------------------- link data

  datatype MediaType = TikTokVideo | TikTokImage | TikTokMusic | TikTokUser | Unknown | InstagramReel

  /** The numeric value of each media type. */
  function MediaTypeCode(t: MediaType): int
  {
    match t
    case TikTokVideo => 1
    case TikTokImage => 2
    case TikTokMusic => 3
    case TikTokUser => 4
    case Unknown => 5
    case InstagramReel => 6
  }

  datatype LinkIdType = Long | Short | User

  datatype LinkData = LinkData(idType: LinkIdType, id: string, url: string, kind: MediaType, spoiler: bool, douyin: bool)

  /** The named groups of one link-pattern match; an empty capture is as falsy as a missing one. */
  datatype LinkMatch = LinkMatch(text: string, http: Option<string>, longId: Option<string>, shortId: Option<string>, userId: Option<string>)

  predicate Truthy(g: Option<string>)
  {
    g.Some? && g.value != ""
  }

  /**
   * The `LinkData` built from a match in `checkForTikTokLink`: the id type is
   * that of the first id group present (long, then short, then user), the URL
   * gains "https://" when the match had no scheme, and spoiler and douyin are false.
   */
  function MakeLinkData(m: LinkMatch, kind: MediaType): (r: LinkData)
    requires Truthy(m.longId) || Truthy(m.shortId) || m.userId.Some?
    ensures r.idType == Long <==> Truthy(m.longId)
    ensures r.idType == Short <==> !Truthy(m.longId) && Truthy(m.shortId)
    ensures r.idType == User <==> !Truthy(m.longId) && !Truthy(m.shortId)
    ensures r.idType == Long ==> Some(r.id) == m.longId
    ensures r.idType == Short ==> Some(r.id) == m.shortId
    ensures r.idType == User ==> Some(r.id) == m.userId
    ensures Truthy(m.http) ==> r.url == m.text
    ensures !Truthy(m.http) ==> r.url == "https://" + m.text
    ensures r.kind == kind && !r.spoiler && !r.douyin
  {
    var idType := if Truthy(m.longId) then Long else if Truthy(m.shortId) then Short else User;
    var id := if Truthy(m.longId) then m.longId.value else if Truthy(m.shortId) then m.shortId.value else m.userId.value;
    LinkData(idType, id, if Truthy(m.http) then m.text else "https://" + m.text, kind, false, false)
  }
}
