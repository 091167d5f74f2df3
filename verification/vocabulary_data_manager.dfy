/** The local vocabulary store: one SharedPreferences file ("flashcard_prefs")
    holding the registry of user-created sets under "vocabulary_sets" and,
    per set, its stored words under "words_" + file name. JSON encoding is
    abstracted away: each key holds the list it was last written with. */
module Store {
  import opened Model

  /** What a preference key holds once its JSON text is decoded. */
  datatype PrefValue =
    | SetList(sets: seq<VocabularySet>)
    | WordList(words: seq<Word>)
    | Text(text: string)

  const KEY_VOCABULARY_SETS: string := "vocabulary_sets"
  const KEY_WORDS_PREFIX: string := "words_"

  function WordsKey(jsonFileName: string): string
  {
    KEY_WORDS_PREFIX + jsonFileName
  }

  /** A word-list key never collides with the registry key, and two sets
      never share a word-list key. */
  lemma WordsKeysDistinct(a: string, b: string)
    ensures WordsKey(a) != KEY_VOCABULARY_SETS
    ensures WordsKey(a) == WordsKey(b) <==> a == b
  {
    assert WordsKey(a)[0] != KEY_VOCABULARY_SETS[0];
    if WordsKey(a) == WordsKey(b) {
      assert a == WordsKey(a)[|KEY_WORDS_PREFIX|..];
    }
  }

  // ----- list operations the manager applies to a decoded list -----

  /** `List.removeIf(p)`: the elements not satisfying `p`, in their order. */
  function RemoveAll<T>(s: seq<T>, p: T -> bool): (r: seq<T>)
    ensures |r| <= |s|
    ensures forall i :: 0 <= i < |r| ==> r[i] in s && !p(r[i])
    ensures forall i :: 0 <= i < |s| && !p(s[i]) ==> s[i] in r
  {
    if s == [] then []
    else if p(s[|s| - 1]) then RemoveAll(s[..|s| - 1], p)
    else RemoveAll(s[..|s| - 1], p) + [s[|s| - 1]]
  }

  /** Removing distributes over concatenation, so the survivors keep their
      relative order. */
  lemma {:induction false} RemoveAllAppend<T>(a: seq<T>, b: seq<T>, p: T -> bool)
    ensures RemoveAll(a + b, p) == RemoveAll(a, p) + RemoveAll(b, p)
  {
    if b != [] {
      assert (a + b)[..|a + b| - 1] == a + b[..|b| - 1];
      RemoveAllAppend(a, b[..|b| - 1], p);
    } else {
      assert a + b == a;
    }
  }

  /** With nothing to remove, the list is unchanged. */
  lemma {:induction false} RemoveAllNone<T>(s: seq<T>, p: T -> bool)
    requires forall i :: 0 <= i < |s| ==> !p(s[i])
    ensures RemoveAll(s, p) == s
  {
    if s != [] {
      RemoveAllNone(s[..|s| - 1], p);
    }
  }

  /** The list with its first element satisfying `p` replaced by `x`, or the
      list unchanged when no element satisfies `p` (an indexed `set` inside a
      loop that breaks at the first hit). */
  function ReplaceFirst<T>(s: seq<T>, p: T -> bool, x: T): (r: seq<T>)
    ensures |r| == |s|
  {
    if s == [] then []
    else if p(s[0]) then [x] + s[1..]
    else [s[0]] + ReplaceFirst(s[1..], p, x)
  }

  /** The replacement lands on the first matching position and nowhere else. */
  lemma {:induction false} ReplaceFirstAt<T>(s: seq<T>, p: T -> bool, x: T, i: nat)
    requires i < |s| && p(s[i])
    requires forall j :: 0 <= j < i ==> !p(s[j])
    ensures ReplaceFirst(s, p, x) == s[i := x]
  {
    if i > 0 {
      ReplaceFirstAt(s[1..], p, x, i - 1);
      assert s[i := x] == [s[0]] + s[1..][i - 1 := x];
    }
  }

  /** Without a matching element, nothing is replaced. */
  lemma {:induction false} ReplaceFirstNone<T>(s: seq<T>, p: T -> bool, x: T)
    requires forall j :: 0 <= j < |s| ==> !p(s[j])
    ensures ReplaceFirst(s, p, x) == s
  {
    if s != [] {
      ReplaceFirstNone(s[1..], p, x);
    }
  }

  predicate HasFileName(set_: VocabularySet, jsonFileName: string)
  {
    set_.jsonFileName == jsonFileName
  }

  /** The SharedPreferences file itself: a key-value map. */
  class SharedPreferences {
    var entries: map<string, PrefValue>

    constructor (entries: map<string, PrefValue>)
      ensures this.entries == entries
    {
      this.entries := entries;
    }

    /** `getString(key, default)`. */
    function GetString(key: string, default: string): (r: string)
      reads this
      ensures key !in entries ==> r == default
    {
      if key in entries && entries[key].Text? then entries[key].text else default
    }

    /** `edit().putString(key, value).apply()`: only `key` changes. */
    method PutString(key: string, value: string)
      modifies this
      ensures entries == old(entries)[key := Text(value)]
      ensures GetString(key, "") == value
    {
      entries := entries[key := Text(value)];
    }
  }

  class VocabularyDataManager {
    const prefs: SharedPreferences

    constructor (prefs: SharedPreferences)
      ensures this.prefs == prefs
    {
      this.prefs := prefs;
    }

    /** The registry; an absent key decodes its default "[]". */
    function UserVocabularySets(): (sets: seq<VocabularySet>)
      reads prefs
      ensures KEY_VOCABULARY_SETS !in prefs.entries ==> sets == []
    {
      if KEY_VOCABULARY_SETS in prefs.entries && prefs.entries[KEY_VOCABULARY_SETS].SetList?
      then prefs.entries[KEY_VOCABULARY_SETS].sets
      else []
    }

    /** The stored words of one set; a never-saved set has none. */
    function WordsForSet(jsonFileName: string): (words: seq<Word>)
      reads prefs
      ensures WordsKey(jsonFileName) !in prefs.entries ==> words == []
    {
      var key := WordsKey(jsonFileName);
      if key in prefs.entries && prefs.entries[key].WordList? then prefs.entries[key].words else []
    }

    /** `isUserCreatedSet`: some registry entry carries exactly this file name. */
    function IsUserCreatedSet(jsonFileName: string): (r: bool)
      reads prefs
      ensures r <==> exists i :: 0 <= i < |UserVocabularySets()|
                      && UserVocabularySets()[i].jsonFileName == jsonFileName
    {
      var sets := UserVocabularySets();
      if exists i :: 0 <= i < |sets| && sets[i].jsonFileName == jsonFileName then true else false
    }

    method SaveVocabularySets(sets: seq<VocabularySet>)
      modifies prefs
      ensures prefs.entries == old(prefs.entries)[KEY_VOCABULARY_SETS := SetList(sets)]
      ensures UserVocabularySets() == sets
    {
      prefs.entries := prefs.entries[KEY_VOCABULARY_SETS := SetList(sets)];
    }

    method SaveWordsForSet(jsonFileName: string, words: seq<Word>)
      modifies prefs
      ensures prefs.entries == old(prefs.entries)[WordsKey(jsonFileName) := WordList(words)]
      ensures WordsForSet(jsonFileName) == words
      ensures UserVocabularySets() == old(UserVocabularySets())
      ensures forall f :: f != jsonFileName ==> WordsForSet(f) == old(WordsForSet(f))
    {
      prefs.entries := prefs.entries[WordsKey(jsonFileName) := WordList(words)];
      WordsKeysDistinct(jsonFileName, jsonFileName);
      forall f | f != jsonFileName ensures WordsForSet(f) == old(WordsForSet(f)) {
        WordsKeysDistinct(f, jsonFileName);
      }
    }

    method AddVocabularySet(set_: VocabularySet)
      modifies prefs
      ensures UserVocabularySets() == old(UserVocabularySets()) + [set_]
      ensures prefs.entries == old(prefs.entries)[KEY_VOCABULARY_SETS := SetList(UserVocabularySets())]
      ensures IsUserCreatedSet(set_.jsonFileName)
      ensures forall f :: WordsForSet(f) == old(WordsForSet(f))
    {
      var sets := UserVocabularySets();
      sets := sets + [set_];
      SaveVocabularySets(sets);
      assert UserVocabularySets()[|sets| - 1] == set_;
      forall f ensures WordsForSet(f) == old(WordsForSet(f)) {
        WordsKeysDistinct(f, f);
      }
    }

    method AddWordToSet(jsonFileName: string, word: Word)
      modifies prefs
      ensures WordsForSet(jsonFileName) == old(WordsForSet(jsonFileName)) + [word]
      ensures prefs.entries == old(prefs.entries)[WordsKey(jsonFileName) := WordList(WordsForSet(jsonFileName))]
      ensures UserVocabularySets() == old(UserVocabularySets())
      ensures forall f :: f != jsonFileName ==> WordsForSet(f) == old(WordsForSet(f))
    {
      var words := WordsForSet(jsonFileName);
      words := words + [word];
      SaveWordsForSet(jsonFileName, words);
    }

    /** Removes every registry entry with this file name, then the set's
        stored words. */
    method DeleteVocabularySet(jsonFileName: string)
      modifies prefs
      ensures UserVocabularySets() == RemoveAll(old(UserVocabularySets()), s => HasFileName(s, jsonFileName))
      ensures !IsUserCreatedSet(jsonFileName)
      ensures WordsKey(jsonFileName) !in prefs.entries && WordsForSet(jsonFileName) == []
      ensures forall f :: f != jsonFileName ==> WordsForSet(f) == old(WordsForSet(f))
      ensures prefs.entries == (old(prefs.entries)[KEY_VOCABULARY_SETS := SetList(UserVocabularySets())]) - {WordsKey(jsonFileName)}
    {
      var sets := UserVocabularySets();
      sets := RemoveAll(sets, s => HasFileName(s, jsonFileName));
      SaveVocabularySets(sets);
      WordsKeysDistinct(jsonFileName, jsonFileName);
      prefs.entries := prefs.entries - {WordsKey(jsonFileName)};
      forall f | f != jsonFileName ensures WordsForSet(f) == old(WordsForSet(f)) {
        WordsKeysDistinct(f, jsonFileName);
      }
      assert !IsUserCreatedSet(jsonFileName) by {
        forall i | 0 <= i < |sets| ensures sets[i].jsonFileName != jsonFileName {
          assert sets[i] in sets;
        }
      }
    }

    /** Replaces the first registry entry whose file name matches the updated
        set's; the registry is otherwise unchanged. */
    method UpdateVocabularySet(updatedSet: VocabularySet)
      modifies prefs
      ensures UserVocabularySets() ==
        ReplaceFirst(old(UserVocabularySets()), s => HasFileName(s, updatedSet.jsonFileName), updatedSet)
      ensures prefs.entries == old(prefs.entries)[KEY_VOCABULARY_SETS := SetList(UserVocabularySets())]
      ensures forall f :: WordsForSet(f) == old(WordsForSet(f))
    {
      var sets := UserVocabularySets();
      ghost var before := sets;
      ghost var p := (s: VocabularySet) => HasFileName(s, updatedSet.jsonFileName);
      var i := 0;
      while i < |sets|
        invariant 0 <= i <= |sets| && sets == before
        invariant forall j :: 0 <= j < i ==> !p(sets[j])
      {
        if sets[i].jsonFileName == updatedSet.jsonFileName {
          ReplaceFirstAt(before, p, updatedSet, i);
          sets := sets[i := updatedSet];
          break;
        }
        i := i + 1;
      }
      if i == |sets| {
        ReplaceFirstNone(before, p, updatedSet);
      }
      SaveVocabularySets(sets);
      forall f ensures WordsForSet(f) == old(WordsForSet(f)) {
        WordsKeysDistinct(f, f);
      }
    }

    /** Removes every stored word equal to `wordToDelete` in English and
        Vietnamese; pronunciation and the other fields are not compared. */
    method DeleteWordFromSet(jsonFileName: string, wordToDelete: Word)
      modifies prefs
      ensures WordsForSet(jsonFileName) == RemoveAll(old(WordsForSet(jsonFileName)), w => SameEntry(w, wordToDelete))
      ensures prefs.entries == old(prefs.entries)[WordsKey(jsonFileName) := WordList(WordsForSet(jsonFileName))]
      ensures UserVocabularySets() == old(UserVocabularySets())
      ensures forall f :: f != jsonFileName ==> WordsForSet(f) == old(WordsForSet(f))
    {
      var words := WordsForSet(jsonFileName);
      words := RemoveAll(words, w => SameEntry(w, wordToDelete));
      SaveWordsForSet(jsonFileName, words);
    }

    /** Replaces the first stored word equal to `oldWord` in English and
        Vietnamese with `newWord`; without such a word the list is unchanged. */
    method UpdateWordInSet(jsonFileName: string, oldWord: Word, newWord: Word)
      modifies prefs
      ensures WordsForSet(jsonFileName) == ReplaceFirst(old(WordsForSet(jsonFileName)), w => SameEntry(w, oldWord), newWord)
      ensures prefs.entries == old(prefs.entries)[WordsKey(jsonFileName) := WordList(WordsForSet(jsonFileName))]
      ensures UserVocabularySets() == old(UserVocabularySets())
      ensures forall f :: f != jsonFileName ==> WordsForSet(f) == old(WordsForSet(f))
    {
      var words := WordsForSet(jsonFileName);
      ghost var before := words;
      ghost var p := (w: Word) => SameEntry(w, oldWord);
      var i := 0;
      while i < |words|
        invariant 0 <= i <= |words| && words == before
        invariant forall j :: 0 <= j < i ==> !p(words[j])
      {
        var word := words[i];
        if word.english == oldWord.english && word.vietnamese == oldWord.vietnamese {
          ReplaceFirstAt(before, p, newWord, i);
          words := words[i := newWord];
          break;
        }
        i := i + 1;
      }
      if i == |words| {
        ReplaceFirstNone(before, p, newWord);
      }
      SaveWordsForSet(jsonFileName, words);
    }
  }
}
