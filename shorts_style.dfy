/**
 * Shorts style names (`backend/utils/shorts_style.py`): a free-form style
 * string is trimmed, lower-cased and looked up in an alias table, and
 * anything unknown falls back to the default style.
 */
module ShortsStyle {
  import opened Wrappers
  import opened Text

  /** The `ShortsStyle` literal type. */
  datatype Style = ActionCommentary | VibeMusicEdit | FantasyAiGen {
    function Name(): string
    {
      match this
      case ActionCommentary => "action_commentary"
      case VibeMusicEdit => "vibe_music_edit"
      case FantasyAiGen => "fantasy_ai_gen"
    }
  }

  const DefaultStyle: Style := ActionCommentary

  /** `_SHORTS_STYLE_ALIASES`. */
  const Aliases: map<string, Style> := map[
    "action" := ActionCommentary,
    "action_commentary" := ActionCommentary,
    "action-commentary" := ActionCommentary,
    "vibe_music_edit" := VibeMusicEdit,
    "vibe-music-edit" := VibeMusicEdit,
    "music_edit" := VibeMusicEdit,
    "music" := VibeMusicEdit,
    "edit" := VibeMusicEdit,
    "fantasy_ai_gen" := FantasyAiGen,
    "fantasy-ai-gen" := FantasyAiGen,
    "fantasy" := FantasyAiGen,
    "aigen" := FantasyAiGen,
    "ai_gen" := FantasyAiGen
  ]

  /** `(style or "").strip().lower()`: the lookup key. */
  function StyleKey(style: Option<string>): string
  {
    Lower(Strip(if style.Some? then style.value else ""))
  }

  /** `normalize_shorts_style`: the aliased style for a known key, the default otherwise. */
  function NormalizeShortsStyle(style: Option<string>): (r: Style)
    ensures r != DefaultStyle ==> StyleKey(style) in Aliases
  {
    var key := StyleKey(style);
    if key in Aliases then Aliases[key] else DefaultStyle
  }

  // ---- whitespace and case ----

  lemma {:induction false} TrimStartSkipsSpace(ws: string, s: string)
    requires forall i :: 0 <= i < |ws| ==> PySpace(ws[i])
    ensures TrimStart(ws + s) == TrimStart(s)
  {
    if ws != [] {
      assert (ws + s)[1..] == ws[1..] + s;
      TrimStartSkipsSpace(ws[1..], s);
    } else {
      assert ws + s == s;
    }
  }

  lemma {:induction false} TrimEndSkipsSpace(s: string, ws: string)
    requires forall i :: 0 <= i < |ws| ==> PySpace(ws[i])
    ensures TrimEnd(s + ws) == TrimEnd(s)
  {
    if ws != [] {
      assert (s + ws)[..|s + ws| - 1] == s + ws[..|ws| - 1];
      TrimEndSkipsSpace(s, ws[..|ws| - 1]);
    } else {
      assert s + ws == s;
    }
  }

  /** Trimming the front of `s + t` stops inside `s` when `s` holds a non-space character. */
  lemma {:induction false} TrimStartStopsEarly(s: string, t: string)
    requires exists i :: 0 <= i < |s| && !PySpace(s[i])
    ensures TrimStart(s + t) == TrimStart(s) + t
  {
    assert s != [];
    assert (s + t)[0] == s[0];
    if PySpace(s[0]) {
      var i :| 0 <= i < |s| && !PySpace(s[i]);
      assert s[1..][i - 1] == s[i];
      assert (s + t)[1..] == s[1..] + t;
      TrimStartStopsEarly(s[1..], t);
    }
  }

  /** Surrounding whitespace does not change what `strip` returns. */
  lemma StripIgnoresPadding(pre: string, s: string, post: string)
    requires forall i :: 0 <= i < |pre| ==> PySpace(pre[i])
    requires forall i :: 0 <= i < |post| ==> PySpace(post[i])
    ensures Strip(pre + s + post) == Strip(s)
  {
    assert pre + s + post == pre + (s + post);
    TrimStartSkipsSpace(pre, s + post);
    if exists i :: 0 <= i < |s| && !PySpace(s[i]) {
      TrimStartStopsEarly(s, post);
      TrimEndSkipsSpace(TrimStart(s), post);
    } else {
      TrimStartSkipsSpace(s, post);
      assert s + [] == s;
      TrimStartSkipsSpace(s, []);
      TrimEndSkipsSpace([], post);
    }
  }

  /** Lower-casing neither creates nor removes whitespace. */
  lemma LowerCharKeepsSpace(c: char)
    ensures PySpace(LowerChar(c)) == PySpace(c)
  {
    if 'A' <= c <= 'Z' {
      assert 'a' <= LowerChar(c) <= 'z';
    }
  }

  lemma {:induction false} LowerOfTrimStart(s: string)
    ensures TrimStart(Lower(s)) == Lower(TrimStart(s))
  {
    if s != [] {
      var l := Lower(s);
      assert l[0] == LowerChar(s[0]);
      LowerCharKeepsSpace(s[0]);
      assert l[1..] == Lower(s[1..]);
      LowerOfTrimStart(s[1..]);
    }
  }

  lemma {:induction false} LowerOfTrimEnd(s: string)
    ensures TrimEnd(Lower(s)) == Lower(TrimEnd(s))
  {
    if s != [] {
      var l := Lower(s);
      assert l[|s| - 1] == LowerChar(s[|s| - 1]);
      LowerCharKeepsSpace(s[|s| - 1]);
      LowerPrefix(s, |s| - 1);
      LowerOfTrimEnd(s[..|s| - 1]);
    }
  }

  lemma LowerPrefix(s: string, n: nat)
    requires n <= |s|
    ensures Lower(s)[..n] == Lower(s[..n])
  {
  }

  /** Letter case does not change the style: a string and its lower-cased form normalize alike. */
  lemma NormalizeIgnoresCase(s: string)
    ensures NormalizeShortsStyle(Some(Lower(s))) == NormalizeShortsStyle(Some(s))
  {
    LowerOfTrimStart(s);
    LowerOfTrimEnd(TrimStart(s));
    LowerIdempotent(Strip(s));
  }

  /** Surrounding whitespace does not change the style. */
  lemma NormalizeIgnoresPadding(pre: string, s: string, post: string)
    requires forall i :: 0 <= i < |pre| ==> PySpace(pre[i])
    requires forall i :: 0 <= i < |post| ==> PySpace(post[i])
    ensures NormalizeShortsStyle(Some(pre + s + post)) == NormalizeShortsStyle(Some(s))
  {
    StripIgnoresPadding(pre, s, post);
  }

  /** None, the empty string and whitespace-only strings all give the default style. */
  lemma BlankIsDefault(style: Option<string>)
    requires style.Some? ==> forall i :: 0 <= i < |style.value| ==> PySpace(style.value[i])
    ensures NormalizeShortsStyle(style) == DefaultStyle
  {
    if style.Some? {
      StripBlank(style.value);
    }
    assert "" !in Aliases;
  }

  lemma {:induction false} LowerOfLowercase(s: string)
    requires forall i :: 0 <= i < |s| ==> !('A' <= s[i] <= 'Z')
    ensures Lower(s) == s
  {
  }

  /** A word without surrounding whitespace or capitals is its own lookup key. */
  lemma KeyOfPlainWord(s: string)
    requires s != [] && !PySpace(s[0]) && !PySpace(s[|s| - 1])
    requires forall i :: 0 <= i < |s| ==> !('A' <= s[i] <= 'Z')
    ensures StyleKey(Some(s)) == s
  {
    assert TrimStart(s) == s;
    assert TrimEnd(s) == s;
  }

  /** A canonical name is already its own lookup key. */
  lemma NameIsKey(st: Style)
    ensures StyleKey(Some(st.Name())) == st.Name()
  {
    KeyOfPlainWord(st.Name());
  }

  /** Every canonical name is in the alias table, mapped to its own style. */
  lemma NameIsAlias(st: Style)
    ensures st.Name() in Aliases && Aliases[st.Name()] == st
  {
    match st
    case ActionCommentary => assert Aliases["action_commentary"] == ActionCommentary;
    case VibeMusicEdit => assert Aliases["vibe_music_edit"] == VibeMusicEdit;
    case FantasyAiGen => assert Aliases["fantasy_ai_gen"] == FantasyAiGen;
  }

  /** Every canonical name is its own alias, so normalizing twice is normalizing once. */
  lemma NormalizeIsIdempotent(style: Option<string>)
    ensures NormalizeShortsStyle(Some(NormalizeShortsStyle(style).Name())) == NormalizeShortsStyle(style)
  {
    var st := NormalizeShortsStyle(style);
    NameIsKey(st);
    NameIsAlias(st);
  }

  /**
   * A word in any letter case with any surrounding whitespace (such as
   * `" MUSIC "`) normalizes to the alias of its lower-cased form.
   */
  lemma PaddedWordAlias(pre: string, word: string, post: string)
    requires forall i :: 0 <= i < |pre| ==> PySpace(pre[i])
    requires forall i :: 0 <= i < |post| ==> PySpace(post[i])
    requires word != [] && !PySpace(word[0]) && !PySpace(word[|word| - 1])
    ensures NormalizeShortsStyle(Some(pre + word + post)) ==
      if Lower(word) in Aliases then Aliases[Lower(word)] else DefaultStyle
  {
    NormalizeIgnoresPadding(pre, word, post);
    assert TrimStart(word) == word && TrimEnd(word) == word;
  }
}
