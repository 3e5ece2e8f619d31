/** What each filter field of a parsed query holds, read off the recorded qualifiers field by field:
    the last value given for a single-valued field, every value in order for a list. */
module SearchFields {
  import opened Prelude
  import opened SearchText
  import opened SearchDates
  import opened SearchParse
  import SearchScanner

  // ----- names

  function NameOf(key: Key): string {
    match key
    case RepoKey => "repo"
    case IsKey => "is"
    case TypeKey => "type"
    case StateKey => "state"
    case AuthorKey => "author"
    case AssigneeKey => "assignee"
    case CommenterKey => "commenter"
    case MentionsKey => "mentions"
    case InvolvesKey => "involves"
    case ReviewRequestedKey => "review-requested"
    case SortKey => "sort"
    case NoKey => "no"
    case UserKey => "user"
    case OrgKey => "org"
    case LabelKey => "label"
    case MilestoneKey => "milestone"
    case LanguageKey => "language"
    case PathKey => "path"
    case ExtensionKey => "extension"
    case CreatedKey => "created"
    case UpdatedKey => "updated"
    case ClosedKey => "closed"
    case MergedKey => "merged"
    case VisibilityKey => "visibility"
    case ForkKey => "fork"
    case ArchivedKey => "archived"
    case TopicKey => "topic"
  }

  lemma WordKeyHasItsName(name: string)
    ensures WordKey(name).Some? ==> name == NameOf(WordKey(name).value)
  {
  }

  lemma PersonKeyHasItsName(name: string)
    ensures PersonKey(name).Some? ==> name == NameOf(PersonKey(name).value)
  {
  }

  lemma PlaceKeyHasItsName(name: string)
    ensures PlaceKey(name).Some? ==> name == NameOf(PlaceKey(name).value)
  {
  }

  lemma DetailKeyHasItsName(name: string)
    ensures DetailKey(name).Some? ==> name == NameOf(DetailKey(name).value)
  {
  }

  lemma DateKeyHasItsName(name: string)
    ensures DateKey(name).Some? ==> name == NameOf(DateKey(name).value)
  {
  }

  lemma WordNameIsRead(key: Key)
    ensures IsWordKey(key) ==> WordKey(NameOf(key)).Some?
  {
  }

  lemma PersonNameIsRead(key: Key)
    ensures IsPersonKey(key) ==> PersonKey(NameOf(key)).Some?
  {
  }

  lemma PlaceNameIsRead(key: Key)
    ensures IsPlaceKey(key) ==> PlaceKey(NameOf(key)).Some?
  {
  }

  lemma DetailNameIsRead(key: Key)
    ensures IsDetailKey(key) ==> DetailKey(NameOf(key)).Some?
  {
  }

  lemma DateNameIsRead(key: Key)
    ensures IsDateKey(key) ==> DateKey(NameOf(key)).Some?
  {
  }

  /** Length and first two letters tell the names apart. */
  function Mark(name: string): (int, char, char) {
    if |name| < 2 then (|name|, ' ', ' ') else (|name|, name[0], name[1])
  }

  function MarkOf(key: Key): (int, char, char) {
    match key
    case RepoKey => (4, 'r', 'e')
    case IsKey => (2, 'i', 's')
    case TypeKey => (4, 't', 'y')
    case StateKey => (5, 's', 't')
    case AuthorKey => (6, 'a', 'u')
    case AssigneeKey => (8, 'a', 's')
    case CommenterKey => (9, 'c', 'o')
    case MentionsKey => (8, 'm', 'e')
    case InvolvesKey => (8, 'i', 'n')
    case ReviewRequestedKey => (16, 'r', 'e')
    case SortKey => (4, 's', 'o')
    case NoKey => (2, 'n', 'o')
    case UserKey => (4, 'u', 's')
    case OrgKey => (3, 'o', 'r')
    case LabelKey => (5, 'l', 'a')
    case MilestoneKey => (9, 'm', 'i')
    case LanguageKey => (8, 'l', 'a')
    case PathKey => (4, 'p', 'a')
    case ExtensionKey => (9, 'e', 'x')
    case CreatedKey => (7, 'c', 'r')
    case UpdatedKey => (7, 'u', 'p')
    case ClosedKey => (6, 'c', 'l')
    case MergedKey => (6, 'm', 'e')
    case VisibilityKey => (10, 'v', 'i')
    case ForkKey => (4, 'f', 'o')
    case ArchivedKey => (8, 'a', 'r')
    case TopicKey => (5, 't', 'o')
  }

  lemma MarkFits(key: Key)
    ensures Mark(NameOf(key)) == MarkOf(key)
  {
  }

  lemma MarksDiffer(a: Key, b: Key)
    ensures MarkOf(a) == MarkOf(b) ==> a == b
  {
  }

  lemma NameIsRead(key: Key)
    ensures KeyNamed(NameOf(key)).Some?
  {
    hide NameOf, WordKey, PersonKey, PlaceKey, DetailKey, DateKey;
    if IsWordKey(key) {
      WordNameIsRead(key);
    } else if IsPersonKey(key) {
      PersonNameIsRead(key);
    } else if IsPlaceKey(key) {
      PlaceNameIsRead(key);
    } else if IsDetailKey(key) {
      DetailNameIsRead(key);
    } else {
      DateNameIsRead(key);
    }
  }

  /** The 27 names, and no others, are read, each as the key it names. */
  lemma KeyHasItsName(name: string, key: Key)
    ensures KeyNamed(name) == Some(key) <==> name == NameOf(key)
  {
    hide NameOf, WordKey, PersonKey, PlaceKey, DetailKey, DateKey, Mark, MarkOf;
    WordKeyHasItsName(name);
    PersonKeyHasItsName(name);
    PlaceKeyHasItsName(name);
    DetailKeyHasItsName(name);
    DateKeyHasItsName(name);
    if name == NameOf(key) {
      NameIsRead(key);
      var other := KeyNamed(name).value;
      MarkFits(key);
      MarkFits(other);
      MarksDiffer(key, other);
    }
  }

  function TextOfWord(word: Word): string {
    match word
    case OpenWord => "open"
    case ClosedWord => "closed"
    case IssueWord => "issue"
    case PrWord => "pr"
    case MergedWord => "merged"
    case UnmergedWord => "unmerged"
    case LockedWord => "locked"
    case UnlockedWord => "unlocked"
    case PublicWord => "public"
    case PrivateWord => "private"
    case ForkWord => "fork"
    case ArchivedWord => "archived"
  }

  lemma NamesAreWords(value: string, word: Word)
    ensures WordNamed(value) == Some(word)
      <==> value == TextOfWord(word) || (word.PrWord? && (value == "pull-request" || value == "pull_request"))
  {
  }

  // ----- the table by field

  datatype TextField =
    | StateField | KindField | MergedStateField | AuthorField | AssigneeField | CommenterField | MentionField
    | ReviewField | SortField | OwnerField | MilestoneField | LanguageField | VisibilityField | PathField
    | ExtensionField

  function TextOf(f: Filters, field: TextField): string {
    match field
    case StateField => f.state
    case KindField => f.kind
    case MergedStateField => f.mergedState
    case AuthorField => f.author
    case AssigneeField => f.assignee
    case CommenterField => f.commenter
    case MentionField => f.mention
    case ReviewField => f.reviewRequested
    case SortField => f.sort
    case OwnerField => f.owner
    case MilestoneField => f.milestone
    case LanguageField => f.language
    case VisibilityField => f.visibility
    case PathField => f.path
    case ExtensionField => f.extension
  }

  function If<T>(condition: bool, value: T): Option<T> {
    if condition then Some(value) else None
  }

  /** The word of a qualifier that takes words. */
  function WordOf(key: Key, val: string): Option<Word> {
    if key.IsKey? || key.TypeKey? || key.StateKey? || key.VisibilityKey? then WordNamed(ToLower(val)) else None
  }

  /** What a word says about a text field. */
  function WordGives(field: TextField, word: Word): Option<string> {
    match field
    case StateField => If(word.OpenWord? || word.ClosedWord?, TextOfWord(word))
    case KindField => If(word.IssueWord? || word.PrWord?, TextOfWord(word))
    case MergedStateField => If(word.MergedWord? || word.UnmergedWord?, TextOfWord(word))
    case VisibilityField => If(word.PublicWord? || word.PrivateWord?, TextOfWord(word))
    case _ => None
  }

  /** The value an accepted qualifier gives to a text field, if it speaks about it. */
  function Gives(field: TextField, key: Key, val: string): Option<string> {
    match field
    case StateField | KindField | MergedStateField | VisibilityField =>
      if WordOf(key, val).Some? then WordGives(field, WordOf(key, val).value) else None
    case AuthorField => If(key.AuthorKey?, val)
    case AssigneeField => If(key.AssigneeKey? && val != "*", val)
    case CommenterField => If(key.CommenterKey?, val)
    case MentionField => If(key.MentionsKey?, val)
    case ReviewField => If(key.ReviewRequestedKey?, val)
    case SortField => if key.SortKey? then NormalizeSort(val) else None
    case OwnerField => If(key.UserKey? || key.OrgKey?, val)
    case MilestoneField => If(key.MilestoneKey?, val)
    case LanguageField => If(key.LanguageKey?, val)
    case PathField => If(key.PathKey?, val)
    case ExtensionField => If(key.ExtensionKey?, TrimPrefix(val, "."))
  }

  datatype ListField = InvolvesField | MissingField | LabelField | TopicField

  function ListOf(f: Filters, field: ListField): seq<string> {
    match field
    case InvolvesField => f.involves
    case MissingField => f.missing
    case LabelField => f.labels
    case TopicField => f.topics
  }

  function Adds(field: ListField, key: Key, val: string): seq<string> {
    match field
    case InvolvesField => if key.InvolvesKey? then [val] else []
    case MissingField => if key.NoKey? then [ToLower(val)] else []
    case LabelField => if key.LabelKey? then [val] else []
    case TopicField => if key.TopicKey? then [val] else []
  }

  datatype FlagField = LockedField | ForkField | ArchivedField | AssigneeAnyField

  function FlagOf(f: Filters, field: FlagField): Option<bool> {
    match field
    case LockedField => f.locked
    case ForkField => f.fork
    case ArchivedField => f.archived
    case AssigneeAnyField => If(f.assigneeAny, true)
  }

  function WordFlags(field: FlagField, word: Word): Option<bool> {
    match field
    case LockedField => If(word.LockedWord? || word.UnlockedWord?, word.LockedWord?)
    case ForkField => If(word.ForkWord?, true)
    case ArchivedField => If(word.ArchivedWord?, true)
    case AssigneeAnyField => None
  }

  function Flags(field: FlagField, key: Key, val: string): Option<bool> {
    if WordOf(key, val).Some? then WordFlags(field, WordOf(key, val).value)
    else
      match field
      case LockedField => None
      case ForkField => if key.ForkKey? then ParseBool(val) else None
      case ArchivedField => if key.ArchivedKey? then ParseBool(val) else None
      case AssigneeAnyField => If(key.AssigneeKey? && val == "*", true)
  }

  datatype DateField = CreatedField | UpdatedField | ClosedField | MergedField

  function DateOf(f: Filters, field: DateField): Option<DateRange> {
    match field
    case CreatedField => f.created
    case UpdatedField => f.updated
    case ClosedField => f.closed
    case MergedField => f.merged
  }

  function Dates(field: DateField, key: Key, val: string): Option<DateRange> {
    match field
    case CreatedField => if key.CreatedKey? then ParseDateRange(val) else None
    case UpdatedField => if key.UpdatedKey? then ParseDateRange(val) else None
    case ClosedField => if key.ClosedKey? then ParseDateRange(val) else None
    case MergedField => if key.MergedKey? then ParseDateRange(val) else None
  }

  /** Owner and name around the first slash. */
  function Names(key: Key, val: string): Option<RepoName> {
    var i := IndexByte(val, '/');
    If(key.RepoKey?, RepoName(val[..i], if i < |val| then val[i + 1..] else ""))
  }

  // ----- one accepted qualifier changes every field as the table says

  function Later<T>(given: Option<T>, before: T): T {
    if given.Some? then given.value else before
  }

  function LaterOption<T>(given: Option<T>, before: Option<T>): Option<T> {
    if given.Some? then given else before
  }

  datatype Field = OfText(text: TextField) | OfList(list: ListField) | OfFlag(flag: FlagField) | OfDate(date: DateField) | OfRepo

  /** Field x of g is what it was in f, changed as the table says for this qualifier. */
  predicate Changes(x: Field, f: Filters, g: Filters, key: Key, val: string) {
    match x
    case OfText(t) => TextOf(g, t) == Later(Gives(t, key, val), TextOf(f, t))
    case OfList(l) => ListOf(g, l) == ListOf(f, l) + Adds(l, key, val)
    case OfFlag(b) => FlagOf(g, b) == LaterOption(Flags(b, key, val), FlagOf(f, b))
    case OfDate(d) => DateOf(g, d) == LaterOption(Dates(d, key, val), DateOf(f, d))
    case OfRepo => g.repo == LaterOption(Names(key, val), f.repo)
  }

  predicate IsWordKey(key: Key) {
    key.IsKey? || key.TypeKey? || key.StateKey? || key.VisibilityKey?
  }

  predicate IsPersonKey(key: Key) {
    key.AuthorKey? || key.AssigneeKey? || key.CommenterKey? || key.MentionsKey?
    || key.InvolvesKey? || key.ReviewRequestedKey?
  }

  predicate IsPlaceKey(key: Key) {
    key.RepoKey? || key.UserKey? || key.OrgKey? || key.LanguageKey?
    || key.TopicKey? || key.PathKey? || key.ExtensionKey?
  }

  predicate IsDetailKey(key: Key) {
    key.SortKey? || key.NoKey? || key.LabelKey? || key.MilestoneKey? || key.ForkKey? || key.ArchivedKey?
  }

  predicate IsDateKey(key: Key) {
    key.CreatedKey? || key.UpdatedKey? || key.ClosedKey? || key.MergedKey?
  }

  predicate ChangesByWord(x: Field, f: Filters, g: Filters, word: Word) {
    match x
    case OfText(t) => TextOf(g, t) == Later(WordGives(t, word), TextOf(f, t))
    case OfList(l) => ListOf(g, l) == ListOf(f, l)
    case OfFlag(b) => FlagOf(g, b) == LaterOption(WordFlags(b, word), FlagOf(f, b))
    case OfDate(d) => DateOf(g, d) == DateOf(f, d)
    case OfRepo => g.repo == f.repo
  }

  lemma IsStep(f: Filters, word: Word, x: Field)
    requires SetIs(f, word).Some?
    ensures ChangesByWord(x, f, SetIs(f, word).value, word)
  {
  }

  /** `type:`, `state:` and `visibility:` accept fewer words than `is:` and do the same with them. */
  lemma NarrowerForms(f: Filters, key: Key, val: string)
    requires IsWordKey(key) && SetWord(f, key, val).Some?
    ensures WordNamed(ToLower(val)).Some? && SetWord(f, key, val) == SetIs(f, WordNamed(ToLower(val)).value)
  {
    hide ToLower, WordNamed;
  }

  lemma WordChanges(f: Filters, g: Filters, key: Key, val: string, x: Field)
    requires IsWordKey(key) && WordOf(key, val).Some? && ChangesByWord(x, f, g, WordOf(key, val).value)
    ensures Changes(x, f, g, key, val)
  {
    hide ToLower, TrimSpace, ParseDateRange, NormalizeSort, ParseBool, TrimPrefix, WordNamed, IndexByte, WordGives,
         WordFlags, TextOf, ListOf, FlagOf, DateOf;
    assert x.OfList? ==> ListOf(f, x.list) + [] == ListOf(f, x.list);
    assert x.OfText? && !x.text.StateField? && !x.text.KindField? && !x.text.MergedStateField? && !x.text.VisibilityField?
      ==> WordGives(x.text, WordOf(key, val).value).None? by { OtherTextsUntouched(x, WordOf(key, val).value); }
  }

  lemma OtherTextsUntouched(x: Field, word: Word)
    ensures x.OfText? && !x.text.StateField? && !x.text.KindField? && !x.text.MergedStateField? && !x.text.VisibilityField?
      ==> WordGives(x.text, word).None?
  {
  }

  lemma WordStep(f: Filters, key: Key, val: string, x: Field)
    requires IsWordKey(key) && SetWord(f, key, val).Some?
    ensures Changes(x, f, SetWord(f, key, val).value, key, val)
  {
    hide Changes, ChangesByWord, SetWord, SetIs, WordNamed, ToLower;
    NarrowerForms(f, key, val);
    var word := WordNamed(ToLower(val)).value;
    IsStep(f, word, x);
    WordChanges(f, SetWord(f, key, val).value, key, val, x);
  }

  lemma PersonTexts(f: Filters, key: Key, val: string, t: TextField)
    requires IsPersonKey(key) && SetPerson(f, key, val).Some?
    ensures TextOf(SetPerson(f, key, val).value, t) == Later(Gives(t, key, val), TextOf(f, t))
  {
    hide ToLower, ParseBool, NormalizeSort, TrimPrefix, WordNamed, IndexByte, WordGives;
  }

  lemma PersonStep(f: Filters, key: Key, val: string, x: Field)
    requires IsPersonKey(key) && SetPerson(f, key, val).Some?
    ensures Changes(x, f, SetPerson(f, key, val).value, key, val)
  {
    hide ToLower, ParseDateRange, ParseBool, WordNamed, IndexByte, WordFlags, TextOf, Gives;
    if x.OfText? {
      PersonTexts(f, key, val, x.text);
    }
  }

  function PlaceGives(t: TextField, key: Key, val: string): Option<string> {
    match t
    case OwnerField => If(key.UserKey? || key.OrgKey?, val)
    case LanguageField => If(key.LanguageKey?, val)
    case PathField => If(key.PathKey?, val)
    case ExtensionField => If(key.ExtensionKey?, TrimPrefix(val, "."))
    case _ => None
  }

  lemma PlacesGive(key: Key, val: string, t: TextField)
    requires IsPlaceKey(key)
    ensures Gives(t, key, val) == PlaceGives(t, key, val)
  {
    hide ToLower, NormalizeSort, TrimPrefix, WordNamed, WordGives;
  }

  lemma PlaceTexts(f: Filters, key: Key, val: string, t: TextField)
    requires IsPlaceKey(key) && SetPlace(f, key, val).Some?
    ensures TextOf(SetPlace(f, key, val).value, t) == Later(Gives(t, key, val), TextOf(f, t))
  {
    hide TrimPrefix, IndexByte, Gives;
    PlacesGive(key, val, t);
  }

  lemma PlaceStep(f: Filters, key: Key, val: string, x: Field)
    requires IsPlaceKey(key) && SetPlace(f, key, val).Some?
    ensures Changes(x, f, SetPlace(f, key, val).value, key, val)
  {
    hide ToLower, ParseDateRange, ParseBool, WordNamed, IndexByte, WordFlags, TextOf, Gives;
    if x.OfText? {
      PlaceTexts(f, key, val, x.text);
    }
  }

  lemma DetailTexts(f: Filters, key: Key, val: string, t: TextField)
    requires IsDetailKey(key) && SetDetail(f, key, val).Some?
    ensures TextOf(SetDetail(f, key, val).value, t) == Later(Gives(t, key, val), TextOf(f, t))
  {
    hide ToLower, ParseBool, NormalizeSort, TrimPrefix, WordNamed, IndexByte, WordGives;
  }

  lemma DetailStep(f: Filters, key: Key, val: string, x: Field)
    requires IsDetailKey(key) && SetDetail(f, key, val).Some?
    ensures Changes(x, f, SetDetail(f, key, val).value, key, val)
  {
    hide ToLower, ParseDateRange, ParseBool, WordNamed, IndexByte, WordFlags, TextOf, Gives;
    if x.OfText? {
      DetailTexts(f, key, val, x.text);
    }
  }

  lemma DateStep(f: Filters, key: Key, val: string, x: Field)
    requires IsDateKey(key) && SetDate(f, key, val).Some?
    ensures Changes(x, f, SetDate(f, key, val).value, key, val)
  {
    hide ToLower, TrimSpace, ParseDateRange, NormalizeSort, ParseBool, TrimPrefix, WordNamed, IndexByte;
  }

  lemma QualifierSetsField(f: Filters, key: Key, val: string, x: Field)
    requires SetField(f, key, val).Some?
    ensures Changes(x, f, SetField(f, key, val).value, key, val)
  {
    hide Changes, SetWord, SetPerson, SetPlace, SetDetail, SetDate;
    if IsWordKey(key) {
      WordStep(f, key, val, x);
    } else if IsPersonKey(key) {
      PersonStep(f, key, val, x);
    } else if IsPlaceKey(key) {
      PlaceStep(f, key, val, x);
    } else if IsDetailKey(key) {
      DetailStep(f, key, val, x);
    } else {
      DateStep(f, key, val, x);
    }
  }

  // ----- a whole query

  /** The key of a positive recorded qualifier. */
  function PositiveKey(q: Qualifier): Option<Key> {
    if q.negated then None else KeyNamed(q.key)
  }

  function LastText(t: TextField, qs: seq<Qualifier>): string {
    if qs == [] then "" else
    var q, before := qs[|qs| - 1], LastText(t, qs[..|qs| - 1]);
    if PositiveKey(q).None? then before else Later(Gives(t, PositiveKey(q).value, q.value), before)
  }

  function AllValues(l: ListField, qs: seq<Qualifier>): seq<string> {
    if qs == [] then [] else
    var q, before := qs[|qs| - 1], AllValues(l, qs[..|qs| - 1]);
    if PositiveKey(q).None? then before else before + Adds(l, PositiveKey(q).value, q.value)
  }

  function LastFlag(b: FlagField, qs: seq<Qualifier>): Option<bool> {
    if qs == [] then None else
    var q, before := qs[|qs| - 1], LastFlag(b, qs[..|qs| - 1]);
    if PositiveKey(q).None? then before else LaterOption(Flags(b, PositiveKey(q).value, q.value), before)
  }

  function LastDates(d: DateField, qs: seq<Qualifier>): Option<DateRange> {
    if qs == [] then None else
    var q, before := qs[|qs| - 1], LastDates(d, qs[..|qs| - 1]);
    if PositiveKey(q).None? then before else LaterOption(Dates(d, PositiveKey(q).value, q.value), before)
  }

  function LastRepo(qs: seq<Qualifier>): Option<RepoName> {
    if qs == [] then None else
    var q, before := qs[|qs| - 1], LastRepo(qs[..|qs| - 1]);
    if PositiveKey(q).None? then before else LaterOption(Names(PositiveKey(q).value, q.value), before)
  }

  predicate ReadsOff(x: Field, f: Filters, qs: seq<Qualifier>) {
    match x
    case OfText(t) => TextOf(f, t) == LastText(t, qs)
    case OfList(l) => ListOf(f, l) == AllValues(l, qs)
    case OfFlag(b) => FlagOf(f, b) == LastFlag(b, qs)
    case OfDate(d) => DateOf(f, d) == LastDates(d, qs)
    case OfRepo => f.repo == LastRepo(qs)
  }

  lemma OneMoreQualifier(x: Field, f: Filters, g: Filters, qs: seq<Qualifier>)
    requires qs != [] && ReadsOff(x, f, qs[..|qs| - 1])
    requires var q := qs[|qs| - 1];
      if PositiveKey(q).None? then g == f else Changes(x, f, g, PositiveKey(q).value, q.value)
    ensures ReadsOff(x, g, qs)
  {
    hide TextOf, ListOf, FlagOf, DateOf, Gives, Adds, Flags, Dates, Names, KeyNamed;
  }

  lemma NothingSet(x: Field)
    ensures ReadsOff(x, NO_FILTERS, [])
  {
  }

  lemma {:induction false} ReplayReadsOff(x: Field, qs: seq<Qualifier>)
    requires Replay(qs).Some?
    ensures ReadsOff(x, Replay(qs).value, qs)
  {
    hide ReadsOff, SetField, Changes, KeyNamed;
    if qs == [] {
      NothingSet(x);
    } else {
      var q, rest := qs[|qs| - 1], qs[..|qs| - 1];
      ReplayReadsOff(x, rest);
      var f := Replay(rest).value;
      if PositiveKey(q).Some? {
        QualifierSetsField(f, PositiveKey(q).value, q.value, x);
      }
      OneMoreQualifier(x, f, Replay(qs).value, qs);
    }
  }

  /** Every filter field of a parsed query is the last value, or all the values in order, that its
      recorded positive qualifiers give to that field. */
  lemma FieldsAreReadOff(tokens: seq<SearchScanner.Token>, x: Field)
    ensures ReadsOff(x, AddTokens(tokens).q.filters, AddTokens(tokens).q.qualifiers)
  {
    hide ReadsOff, AddTokens, Replay;
    ReplayRebuildsFilters(tokens);
    ReplayReadsOff(x, AddTokens(tokens).q.qualifiers);
  }
}
