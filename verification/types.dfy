/** The application's records and closed tables: the supported languages with
    their display entries, the grade levels, homework results, conversation
    messages, the analysis returned by the inference service, and user profiles. */
module Types {
  import opened Js

  /** The `SupportedLanguage` union: exactly seven languages. */
  datatype Language = Spanish | Chinese | Arabic | Vietnamese | French | Hindi | Portuguese

  /** Every supported language, in declaration order. */
  const ALL_LANGUAGES: seq<Language> :=
    [Spanish, Chinese, Arabic, Vietnamese, French, Hindi, Portuguese]

  /** The string literal that stands for the language in the union type. */
  function LanguageId(l: Language): string {
    match l
    case Spanish => "spanish"
    case Chinese => "chinese"
    case Arabic => "arabic"
    case Vietnamese => "vietnamese"
    case French => "french"
    case Hindi => "hindi"
    case Portuguese => "portuguese"
  }

  /** Reads a string as a `SupportedLanguage`, if it is one of the seven literals. */
  function ParseLanguageId(s: string): (r: Option<Language>)
    ensures r.Some? ==> LanguageId(r.value) == s
  {
    if s == "spanish" then Some(Spanish)
    else if s == "chinese" then Some(Chinese)
    else if s == "arabic" then Some(Arabic)
    else if s == "vietnamese" then Some(Vietnamese)
    else if s == "french" then Some(French)
    else if s == "hindi" then Some(Hindi)
    else if s == "portuguese" then Some(Portuguese)
    else None
  }

  /** There are exactly seven languages, each listed once, and their literals round-trip. */
  lemma LanguagesClosed()
    ensures |ALL_LANGUAGES| == 7
    ensures forall l: Language :: l in ALL_LANGUAGES
    ensures forall i, j :: 0 <= i < j < |ALL_LANGUAGES| ==> ALL_LANGUAGES[i] != ALL_LANGUAGES[j]
    ensures forall l: Language :: ParseLanguageId(LanguageId(l)) == Some(l)
  {
    forall l: Language ensures l in ALL_LANGUAGES && ParseLanguageId(LanguageId(l)) == Some(l) {
      match l
      case Spanish => assert ALL_LANGUAGES[0] == l;
      case Chinese => assert ALL_LANGUAGES[1] == l;
      case Arabic => assert ALL_LANGUAGES[2] == l;
      case Vietnamese => assert ALL_LANGUAGES[3] == l;
      case French => assert ALL_LANGUAGES[4] == l;
      case Hindi => assert ALL_LANGUAGES[5] == l;
      case Portuguese => assert ALL_LANGUAGES[6] == l;
    }
  }

  /** One entry of the `LANGUAGES` table; `englishName` is its `label` field, a reserved word in Dafny. */
  datatype LanguageInfo = LanguageInfo(englishName: string, native: string, flag: string)

  /** The `LANGUAGES` table: English label, native name and flag emoji per language. */
  function Info(l: Language): LanguageInfo {
    match l
    case Spanish => LanguageInfo("Spanish", "Espa\U{00f1}ol", "\U{1F1EA}\U{1F1F8}")
    case Chinese => LanguageInfo("Chinese", "\U{4e2d}\U{6587}", "\U{1F1E8}\U{1F1F3}")
    case Arabic =>
      LanguageInfo("Arabic", "\U{0627}\U{0644}\U{0639}\U{0631}\U{0628}\U{064a}\U{0629}", "\U{1F1F8}\U{1F1E6}")
    case Vietnamese => LanguageInfo("Vietnamese", "Ti\U{1ebf}ng Vi\U{1ec7}t", "\U{1F1FB}\U{1F1F3}")
    case French => LanguageInfo("French", "Fran\U{00e7}ais", "\U{1F1EB}\U{1F1F7}")
    case Hindi => LanguageInfo("Hindi", "\U{0939}\U{093f}\U{0928}\U{094d}\U{0926}\U{0940}", "\U{1F1EE}\U{1F1F3}")
    case Portuguese => LanguageInfo("Portuguese", "Portugu\U{00ea}s", "\U{1F1E7}\U{1F1F7}")
  }

  /** A regional-indicator symbol, two of which make a flag emoji. */
  predicate IsRegionalIndicator(c: char) {
    '\U{1F1E6}' <= c <= '\U{1F1FF}'
  }

  /** Every language has a table entry whose English name (the source's `label`) is its literal with a capital
      first letter and whose flag is a pair of regional indicators. */
  lemma InfoWellFormed(l: Language)
    ensures var info := Info(l);
            && |info.englishName| == |LanguageId(l)| && |info.englishName| > 0
            && info.englishName[1..] == LanguageId(l)[1..]
            && info.englishName[0] as int == LanguageId(l)[0] as int - 32
            && info.native != ""
            && |info.flag| == 2 && IsRegionalIndicator(info.flag[0]) && IsRegionalIndicator(info.flag[1])
  {
  }

  /** `GRADE_LEVELS`, in display order. */
  const GRADE_LEVELS: seq<string> := [
    "1st Grade", "2nd Grade", "3rd Grade", "4th Grade", "5th Grade", "6th Grade",
    "7th Grade", "8th Grade", "9th Grade", "10th Grade", "11th Grade", "12th Grade",
    "College"
  ]

  /** The default grade level given to profiles that have none. */
  const DEFAULT_GRADE_LEVEL: string := "College"

  /** Decimal digits of a natural number. */
  function DecimalString(n: nat): (r: string)
    ensures |r| >= 1
    ensures forall k :: 0 <= k < |r| ==> '0' <= r[k] <= '9'
  {
    if n < 10 then [(('0' as int) + n) as char]
    else DecimalString(n / 10) + [(('0' as int) + n % 10) as char]
  }

  /** Different numbers have different decimal strings. */
  lemma {:induction false} DecimalStringInjective(m: nat, n: nat)
    requires DecimalString(m) == DecimalString(n)
    ensures m == n
    decreases m
  {
    var a, b := DecimalString(m), DecimalString(n);
    if m >= 10 && n >= 10 {
      assert a[|a| - 1] == b[|b| - 1];
      assert m % 10 == n % 10;
      assert a[..|a| - 1] == DecimalString(m / 10);
      assert b[..|b| - 1] == DecimalString(n / 10);
      DecimalStringInjective(m / 10, n / 10);
    } else if m < 10 && n < 10 {
      assert a[0] == b[0];
    }
  }

  /** English ordinal suffix: 1st, 2nd, 3rd, 4th, ..., 11th, 12th, 13th, 21st. */
  function OrdinalSuffix(n: nat): string {
    if 11 <= n % 100 <= 13 then "th"
    else if n % 10 == 1 then "st"
    else if n % 10 == 2 then "nd"
    else if n % 10 == 3 then "rd"
    else "th"
  }

  /** The label of school grade `n`. */
  function GradeLabel(n: nat): string {
    DecimalString(n) + OrdinalSuffix(n) + " Grade"
  }

  /** The table holds the twelve school grades in order, then `College`. */
  lemma GradeLevelsTable()
    ensures |GRADE_LEVELS| == 13
    ensures forall k :: 0 <= k < 12 ==> GRADE_LEVELS[k] == GradeLabel(k + 1)
    ensures GRADE_LEVELS[12] == DEFAULT_GRADE_LEVEL
  {
    OneDigitGrades();
    TwoDigitGrades();
  }

  lemma OneDigitGrades()
    ensures forall k :: 0 <= k < 9 ==> GRADE_LEVELS[k] == GradeLabel(k + 1)
  {
    FirstGrades();
    MiddleGrades();
    LateGrades();
  }

  lemma FirstGrades()
    ensures GRADE_LEVELS[0] == GradeLabel(1)
    ensures GRADE_LEVELS[1] == GradeLabel(2)
    ensures GRADE_LEVELS[2] == GradeLabel(3)
  {
    assert DecimalString(1) == "1" && DecimalString(2) == "2" && DecimalString(3) == "3";
  }

  lemma MiddleGrades()
    ensures GRADE_LEVELS[3] == GradeLabel(4)
    ensures GRADE_LEVELS[4] == GradeLabel(5)
    ensures GRADE_LEVELS[5] == GradeLabel(6)
  {
    assert DecimalString(4) == "4" && DecimalString(5) == "5" && DecimalString(6) == "6";
  }

  lemma LateGrades()
    ensures GRADE_LEVELS[6] == GradeLabel(7)
    ensures GRADE_LEVELS[7] == GradeLabel(8)
    ensures GRADE_LEVELS[8] == GradeLabel(9)
  {
    assert DecimalString(7) == "7" && DecimalString(8) == "8" && DecimalString(9) == "9";
  }

  lemma TwoDigitGrades()
    ensures GRADE_LEVELS[9] == GradeLabel(10)
    ensures GRADE_LEVELS[10] == GradeLabel(11)
    ensures GRADE_LEVELS[11] == GradeLabel(12)
  {
    TwoDigitDecimals();
  }

  lemma TwoDigitDecimals()
    ensures DecimalString(10) == "10" && DecimalString(11) == "11" && DecimalString(12) == "12"
  {
    assert DecimalString(1) == "1";
  }

  /** `HomeworkResult`: `id` and `audioUrl` are optional, everything else required. */
  datatype HomeworkResult = HomeworkResult(
    id: Option<string>,
    userId: string,
    imageUrl: string,
    originalText: string,
    translatedText: string,
    explanation: string,
    sourceLanguage: string,
    targetLanguage: Language,
    subject: string,
    timestamp: int,
    audioUrl: Option<string>)

  /** The author of a conversation message: only the user or the assistant. */
  datatype Role = User | Assistant

  /** `ConversationMessage`. */
  datatype ConversationMessage = ConversationMessage(
    role: Role,
    text: string,
    timestamp: int,
    audioUrl: Option<string>)

  /** `GeminiAnalysis`: the five string fields the inference service is asked for. */
  datatype GeminiAnalysis = GeminiAnalysis(
    originalText: string,
    translatedText: string,
    explanation: string,
    subject: string,
    sourceLanguage: string)

  /** `UserProfile`. */
  datatype UserProfile = UserProfile(
    uid: string,
    email: Option<string>,
    displayName: Option<string>,
    photoURL: Option<string>,
    selectedLanguage: Option<Language>,
    age: Option<int>,
    gradeLevel: Option<string>,
    createdAt: int)
}
