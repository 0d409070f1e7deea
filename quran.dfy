/** The chapter-data shaping of the Quran reader's data-access layer: the
    HTTP success gates, the positional join of verse text with translation,
    the slug of a chapter name, the first-match lookup by slug and the audio
    URL template. The network requests themselves are not modelled: each
    decoded response is an input. */
module Quran {
  import opened Text

  // ---------------------------------------------------------------------
  // Data model
  // ---------------------------------------------------------------------

  datatype TranslatedName = TranslatedName(name: string)

  /** One chapter (surah) as the chapters endpoint describes it. */
  datatype Chapter = Chapter(
    id: int,
    nameArabic: string,
    nameSimple: string,
    nameComplex: string,
    translatedName: TranslatedName,
    versesCount: int,
    revelationPlace: string)

  /** A verse as the reader displays it. */
  datatype Verse = Verse(id: int, text: string, translation: string)

  /** A chapter's own fields spread into one record, plus its verses. */
  datatype ChapterDetail = ChapterDetail(
    id: int,
    nameArabic: string,
    nameSimple: string,
    nameComplex: string,
    translatedName: TranslatedName,
    versesCount: int,
    revelationPlace: string,
    verses: seq<Verse>)
  {
    /** The chapter fields of the record, without the verses. */
    function AsChapter(): Chapter {
      Chapter(id, nameArabic, nameSimple, nameComplex, translatedName, versesCount, revelationPlace)
    }
  }

  // Decoded bodies of the four endpoints.
  datatype ChaptersResponse = ChaptersResponse(chapters: seq<Chapter>)
  datatype ChapterResponse = ChapterResponse(chapter: Chapter)
  datatype VerseText = VerseText(verseNumber: int, textUthmani: string)
  datatype VersesResponse = VersesResponse(verses: seq<VerseText>)
  datatype TranslationText = TranslationText(text: string)
  datatype TranslationResponse = TranslationResponse(translations: seq<TranslationText>)

  /** An HTTP response: its status code and its decoded body. */
  datatype Response<T> = Response(status: int, body: T) {
    /** `Response.ok` of the Fetch standard: the status is in 200-299. */
    predicate Ok()
      ensures Ok() <==> status / 100 == 2
    {
      200 <= status <= 299
    }
  }

  /** The three responses `getChapter` waits for, in request order. */
  datatype DetailResponses = DetailResponses(
    chapter: Response<ChapterResponse>,
    verses: Response<VersesResponse>,
    translation: Response<TranslationResponse>)

  /** The errors the data-access functions throw. */
  datatype Error =
    | ChaptersHttpError(status: int)
    | ChapterFetchFailed(chapterStatus: int, versesStatus: int, translationStatus: int)
    | ChapterNotFound(slug: string)

  datatype Result<T> = Ok(value: T) | Err(error: Error)

  datatype Option<T> = None | Some(value: T)

  // ---------------------------------------------------------------------
  // getChapters: the success gate on the chapter list
  // ---------------------------------------------------------------------

  function GetChapters(response: Response<ChaptersResponse>): (r: Result<seq<Chapter>>)
    ensures r.Err? <==> !response.Ok()
    ensures r.Err? ==> r.error == ChaptersHttpError(response.status)
    ensures r.Ok? ==> r.value == response.body.chapters
  {
    if !response.Ok() then Err(ChaptersHttpError(response.status))
    else Ok(response.body.chapters)
  }

  // ---------------------------------------------------------------------
  // getChapter: the combined gate and the positional join
  // ---------------------------------------------------------------------

  /** `translations[index]?.text || ""`: the text at `index`, or the empty
      string when there is no entry there or its text is empty. */
  function TranslationAt(translations: seq<TranslationText>, index: nat): (t: string)
    ensures t == if index < |translations| then translations[index].text else ""
  {
    if index < |translations| && translations[index].text != "" then translations[index].text else ""
  }

  /** The verse list: one entry per verse-text entry, paired by position
      with the translation list. */
  function JoinVerses(verses: seq<VerseText>, translations: seq<TranslationText>): (r: seq<Verse>)
    ensures |r| == |verses|
    ensures forall i :: 0 <= i < |r| ==>
      r[i].id == verses[i].verseNumber && r[i].text == verses[i].textUthmani
    ensures forall i :: 0 <= i < |r| ==>
      r[i].translation == if i < |translations| then translations[i].text else ""
  {
    seq(|verses|, i requires 0 <= i < |verses| =>
      Verse(verses[i].verseNumber, verses[i].textUthmani, TranslationAt(translations, i)))
  }

  /** The detail record: the chapter's fields followed by the joined verses. */
  function MakeDetail(chapter: Chapter, verses: seq<Verse>): (d: ChapterDetail)
    ensures d.AsChapter() == chapter && d.verses == verses
  {
    ChapterDetail(chapter.id, chapter.nameArabic, chapter.nameSimple, chapter.nameComplex,
                  chapter.translatedName, chapter.versesCount, chapter.revelationPlace, verses)
  }

  /** The gate of `getChapter`: it throws when any one response is not ok. */
  predicate AllOk(responses: DetailResponses)
    ensures !AllOk(responses) <==>
      (!responses.chapter.Ok() || !responses.verses.Ok() || !responses.translation.Ok())
  {
    responses.chapter.Ok() && responses.verses.Ok() && responses.translation.Ok()
  }

  function GetChapter(responses: DetailResponses): (r: Result<ChapterDetail>)
    ensures r.Err? <==> !AllOk(responses)
    ensures r.Err? ==> r.error == ChapterFetchFailed(responses.chapter.status,
                                                     responses.verses.status,
                                                     responses.translation.status)
    ensures r.Ok? ==> r.value.AsChapter() == responses.chapter.body.chapter
    ensures r.Ok? ==> r.value.verses == JoinVerses(responses.verses.body.verses,
                                                   responses.translation.body.translations)
  {
    if !AllOk(responses) then
      Err(ChapterFetchFailed(responses.chapter.status, responses.verses.status, responses.translation.status))
    else
      Ok(MakeDetail(responses.chapter.body.chapter,
                    JoinVerses(responses.verses.body.verses, responses.translation.body.translations)))
  }

  /** A successful detail has one verse per verse-text entry, and verse `i`
      has the `i`-th verse number, text and (if any) translation. */
  lemma GetChapterVerses(responses: DetailResponses, i: nat)
    requires AllOk(responses)
    requires i < |responses.verses.body.verses|
    ensures GetChapter(responses).Ok?
    ensures |GetChapter(responses).value.verses| == |responses.verses.body.verses|
    ensures GetChapter(responses).value.verses[i] ==
      Verse(responses.verses.body.verses[i].verseNumber,
            responses.verses.body.verses[i].textUthmani,
            if i < |responses.translation.body.translations|
            then responses.translation.body.translations[i].text else "")
  {
  }

  /** Translations beyond the last verse are dropped: cutting them off does
      not change the join. */
  lemma JoinDropsExtraTranslations(verses: seq<VerseText>, translations: seq<TranslationText>)
    requires |translations| >= |verses|
    ensures JoinVerses(verses, translations) == JoinVerses(verses, translations[..|verses|])
  {
  }

  /** Missing translations are the same as empty ones. */
  lemma JoinPadsMissingTranslations(verses: seq<VerseText>, translations: seq<TranslationText>)
    requires |translations| <= |verses|
    ensures JoinVerses(verses, translations) ==
            JoinVerses(verses, translations + seq(|verses| - |translations|, _ => TranslationText("")))
  {
  }

  // ---------------------------------------------------------------------
  // slugify: lower case, then each run of whitespace becomes one "-"
  // ---------------------------------------------------------------------

  /** The characters of the regular-expression class `\s` in JavaScript
      (ECMAScript WhiteSpace and LineTerminator). */
  predicate IsWhitespace(c: char)
    ensures IsWhitespace(c) ==> c != '-' && !('0' <= c <= '9') && !('a' <= c <= 'z') && !('A' <= c <= 'Z')
  {
    c == ' ' || c == '\t' || c == '\n' || c == '\r' || c == '\U{000B}' || c == '\U{000C}' ||
    c == '\U{00A0}' || c == '\U{1680}' || ('\U{2000}' <= c <= '\U{200A}') ||
    c == '\U{2028}' || c == '\U{2029}' || c == '\U{202F}' || c == '\U{205F}' ||
    c == '\U{3000}' || c == '\U{FEFF}'
  }

  predicate IsUpper(c: char) {
    'A' <= c <= 'Z'
  }

  predicate NoWhitespace(s: string) {
    forall i :: 0 <= i < |s| ==> !IsWhitespace(s[i])
  }

  predicate NoUpper(s: string) {
    forall i :: 0 <= i < |s| ==> !IsUpper(s[i])
  }

  function LowerChar(c: char): (r: char)
    ensures !IsUpper(r)
    ensures IsWhitespace(r) <==> IsWhitespace(c)
    ensures !IsUpper(c) ==> r == c
    ensures IsUpper(c) ==> r as int == c as int + 32 && 'a' <= r <= 'z'
  {
    if IsUpper(c) then (c as int - 'A' as int + 'a' as int) as char else c
  }

  /** `toLowerCase` on the ASCII letters. */
  function ToLower(s: string): (r: string)
    ensures |r| == |s| && NoUpper(r)
    ensures forall i :: 0 <= i < |s| ==> r[i] == LowerChar(s[i])
  {
    seq(|s|, i requires 0 <= i < |s| => LowerChar(s[i]))
  }

  /** What is left of `s` after its leading run of whitespace. */
  function DropWhitespace(s: string): (r: string)
    ensures |r| <= |s| && r == s[|s| - |r|..]
    ensures forall i :: 0 <= i < |s| - |r| ==> IsWhitespace(s[i])
    ensures r == [] || !IsWhitespace(r[0])
  {
    if s != [] && IsWhitespace(s[0]) then DropWhitespace(s[1..]) else s
  }

  /** `replace(/\s+/g, "-")`: every maximal run of whitespace becomes one hyphen. */
  function CollapseWhitespace(s: string): (r: string)
    ensures |r| <= |s|
    ensures NoWhitespace(r)
    ensures forall i :: 0 <= i < |r| ==> r[i] == '-' || r[i] in s
    decreases |s|
  {
    if s == [] then []
    else if IsWhitespace(s[0]) then
      var rest := DropWhitespace(s);
      assert |rest| < |s|;
      "-" + CollapseWhitespace(rest)
    else
      [s[0]] + CollapseWhitespace(s[1..])
  }

  function Slugify(name: string): (r: string)
    ensures NoWhitespace(r) && NoUpper(r)
    ensures |r| <= |name|
  {
    CollapseWhitespace(ToLower(name))
  }

  lemma {:induction false} CollapseWithoutWhitespace(s: string)
    requires NoWhitespace(s)
    ensures CollapseWhitespace(s) == s
    decreases |s|
  {
    if s != [] {
      CollapseWithoutWhitespace(s[1..]);
    }
  }

  /** A whitespace-free prefix is kept, the non-empty whitespace run after
      it becomes one hyphen, and the replacement goes on with what follows
      the run; so "a b  c" becomes "a-b-c", one hyphen per run. */
  lemma {:induction false} CollapseRun(x: string, w: string, y: string)
    requires NoWhitespace(x)
    requires |w| > 0 && forall i :: 0 <= i < |w| ==> IsWhitespace(w[i])
    requires y == [] || !IsWhitespace(y[0])
    ensures CollapseWhitespace(x + w + y) == x + "-" + CollapseWhitespace(y)
    decreases |x|
  {
    if x == [] {
      assert x + w + y == w + y;
      CollapseRunStart(w, y);
    } else {
      var t := x[1..] + w + y;
      assert x + w + y == [x[0]] + t;
      CollapseKeeps(x[0], t);
      CollapseRun(x[1..], w, y);
      Regroup(x, "-", CollapseWhitespace(y));
    }
  }

  /** Concatenation regrouped around the head of a non-empty `x`. */
  lemma Regroup<T>(x: seq<T>, b: seq<T>, c: seq<T>)
    requires |x| > 0
    ensures [x[0]] + (x[1..] + b + c) == x + b + c
  {
    assert [x[0]] + x[1..] == x;
  }

  /** A character that is not whitespace is copied. */
  lemma CollapseKeeps(c: char, t: string)
    requires !IsWhitespace(c)
    ensures CollapseWhitespace([c] + t) == [c] + CollapseWhitespace(t)
  {
    assert ([c] + t)[1..] == t;
  }

  /** A leading whitespace run becomes one hyphen. */
  lemma CollapseRunStart(w: string, y: string)
    requires |w| > 0 && forall i :: 0 <= i < |w| ==> IsWhitespace(w[i])
    requires y == [] || !IsWhitespace(y[0])
    ensures CollapseWhitespace(w + y) == "-" + CollapseWhitespace(y)
  {
    assert (w + y)[0] == w[0];
    DropWhitespaceRun(w, y);
  }

  lemma {:induction false} DropWhitespaceRun(w: string, y: string)
    requires forall i :: 0 <= i < |w| ==> IsWhitespace(w[i])
    requires y == [] || !IsWhitespace(y[0])
    ensures DropWhitespace(w + y) == y
    decreases |w|
  {
    if w != [] {
      assert (w + y)[1..] == w[1..] + y;
      DropWhitespaceRun(w[1..], y);
    }
  }

  /** A slug is its own slug. */
  lemma SlugifyIdempotent(name: string)
    ensures Slugify(Slugify(name)) == Slugify(name)
  {
    SlugifyFixedPoint(Slugify(name));
  }

  /** The strings `slugify` leaves alone are exactly those without
      whitespace and without upper-case letters. */
  lemma SlugifyFixedPoint(s: string)
    ensures Slugify(s) == s <==> NoWhitespace(s) && NoUpper(s)
  {
    if NoWhitespace(s) && NoUpper(s) {
      assert ToLower(s) == s;
      CollapseWithoutWhitespace(s);
    }
  }

  // ---------------------------------------------------------------------
  // getChapterBySlug: first match by slug, then the detail by id
  // ---------------------------------------------------------------------

  /** The `find` test; only a string that is its own slug can match. */
  predicate SlugMatches(chapter: Chapter, slug: string)
    ensures SlugMatches(chapter, slug) ==> Slugify(slug) == slug
  {
    SlugifyIdempotent(chapter.nameSimple);
    Slugify(chapter.nameSimple) == slug
  }

  /** `chapters.find(c => slugify(c.name_simple) === slug)`, as an index. */
  function FindBySlug(chapters: seq<Chapter>, slug: string): (r: Option<nat>)
    ensures r.Some? ==> r.value < |chapters| && SlugMatches(chapters[r.value], slug)
    ensures r.Some? ==> forall j :: 0 <= j < r.value ==> !SlugMatches(chapters[j], slug)
    ensures r.None? <==> forall j :: 0 <= j < |chapters| ==> !SlugMatches(chapters[j], slug)
  {
    if chapters == [] then None
    else if SlugMatches(chapters[0], slug) then Some(0)
    else
      match FindBySlug(chapters[1..], slug)
      case Some(i) => Some(i + 1)
      case None => None
  }

  /** The chapter of the list that the slug names, or not-found. */
  function FindChapterBySlug(chapters: seq<Chapter>, slug: string): (r: Result<Chapter>)
    ensures r.Err? <==> forall j :: 0 <= j < |chapters| ==> !SlugMatches(chapters[j], slug)
    ensures r.Err? ==> r.error == ChapterNotFound(slug)
    ensures r.Ok? ==>
      exists i :: (0 <= i < |chapters| && chapters[i] == r.value && SlugMatches(chapters[i], slug) &&
                   forall j :: 0 <= j < i ==> !SlugMatches(chapters[j], slug))
  {
    match FindBySlug(chapters, slug)
    case None => Err(ChapterNotFound(slug))
    case Some(i) => Ok(chapters[i])
  }

  /** The whole of `getChapterBySlug`: list the chapters, find the slug, and
      fetch the detail of the chapter found by its id as a decimal string.
      `fetch` stands for the three requests `getChapter` makes for an id. */
  function GetChapterBySlug(list: Response<ChaptersResponse>, slug: string,
                            fetch: string -> DetailResponses): (r: Result<ChapterDetail>)
    ensures !list.Ok() ==> r == Err(ChaptersHttpError(list.status))
    ensures list.Ok() ==>
      match FindChapterBySlug(list.body.chapters, slug)
      case Err(e) => r == Err(e)
      case Ok(c) => r == GetChapter(fetch(IntToString(c.id)))
  {
    match GetChapters(list)
    case Err(e) => Err(e)
    case Ok(chapters) =>
      match FindChapterBySlug(chapters, slug)
      case Err(e) => Err(e)
      case Ok(c) => GetChapter(fetch(IntToString(c.id)))
  }

  /** When two chapters share a slug, the earlier one is the one found. */
  lemma FirstMatchWins(chapters: seq<Chapter>, slug: string, i: nat, j: nat)
    requires i < j < |chapters|
    requires SlugMatches(chapters[i], slug) && SlugMatches(chapters[j], slug)
    ensures FindBySlug(chapters, slug).Some? && FindBySlug(chapters, slug).value <= i
  {
  }

  /** The slug of a chapter's own name finds a chapter (the first one with
      that slug). */
  lemma OwnSlugIsFound(chapters: seq<Chapter>, i: nat)
    requires i < |chapters|
    ensures FindChapterBySlug(chapters, Slugify(chapters[i].nameSimple)).Ok?
  {
  }

  // ---------------------------------------------------------------------
  // getAudioUrl
  // ---------------------------------------------------------------------

  const AudioPrefix: string := "https://cdn.islamic.network/quran/audio-surah/128/ar.alafasy/"
  const AudioSuffix: string := ".mp3"

  function GetAudioUrl(chapterId: string): (url: string)
    ensures |url| == |AudioPrefix| + |chapterId| + |AudioSuffix|
    ensures url[..|AudioPrefix|] == AudioPrefix
    ensures url[|AudioPrefix|..|url| - |AudioSuffix|] == chapterId
    ensures url[|url| - |AudioSuffix|..] == AudioSuffix
  {
    AudioPrefix + chapterId + AudioSuffix
  }

  /** The chapter id inside an audio URL, if it has the URL's shape. */
  function AudioUrlId(url: string): (r: Option<string>)
    ensures r.Some? <==> (|url| >= |AudioPrefix| + |AudioSuffix| &&
                          url[..|AudioPrefix|] == AudioPrefix && url[|url| - |AudioSuffix|..] == AudioSuffix)
  {
    if |url| >= |AudioPrefix| + |AudioSuffix| &&
       url[..|AudioPrefix|] == AudioPrefix && url[|url| - |AudioSuffix|..] == AudioSuffix
    then Some(url[|AudioPrefix|..|url| - |AudioSuffix|])
    else None
  }

  /** The id is recovered from its URL by stripping the prefix and suffix. */
  lemma AudioUrlRoundTrip(chapterId: string)
    ensures AudioUrlId(GetAudioUrl(chapterId)) == Some(chapterId)
  {
  }

  /** Every URL from which an id is recovered is the URL of that id. */
  lemma AudioUrlIdSound(url: string)
    requires AudioUrlId(url).Some?
    ensures GetAudioUrl(AudioUrlId(url).value) == url
  {
  }

  lemma AudioUrlInjective(a: string, b: string)
    ensures GetAudioUrl(a) == GetAudioUrl(b) ==> a == b
  {
  }

  /** Distinct chapter ids give distinct audio URLs. */
  lemma ChapterAudioUrlInjective(m: int, n: int)
    ensures GetAudioUrl(IntToString(m)) == GetAudioUrl(IntToString(n)) ==> m == n
  {
    AudioUrlInjective(IntToString(m), IntToString(n));
    IntToStringInjective(m, n);
  }
}
