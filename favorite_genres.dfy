/** The favorite-genre picker of the profile page: the selection starts from
    the saved genres, each click toggles one genre, and the save control is
    shown only while the selection differs from what is saved, ignoring
    order. */
module FavoriteGenres {
  import opened Wrappers
  import opened Subsequences
  import opened StringOrder

  /** The selection when the user record arrives: the saved genres when
      they are an array, otherwise nothing. */
  function InitialSelection(saved: ListField<string>): (r: seq<string>)
    ensures saved.Items? ==> r == saved.items
    ensures !saved.Items? ==> r == []
  {
    if saved.Items? then saved.items else []
  }

  /** `filter((g) => g !== genre)`: every occurrence of `genre` goes, every
      other element stays, in order. */
  function RemoveAll(s: seq<string>, genre: string): (r: seq<string>)
    ensures multiset(r) == multiset(s)[genre := 0]
    ensures IsSubsequence(r, s)
  {
    if s == [] then []
    else
      assert s == [s[0]] + s[1..];
      if s[0] == genre then
        var r := RemoveAll(s[1..], genre);
        assert r != [] ==> r[0] in multiset(r);
        r
      else [s[0]] + RemoveAll(s[1..], genre)
  }

  /** `handleGenreToggle`: a selected genre is removed (all of its
      occurrences, the rest kept in order), an unselected one is appended.
      Either way exactly that genre's membership flips. */
  function Toggle(selected: seq<string>, genre: string): (r: seq<string>)
    ensures genre in r <==> genre !in selected
    ensures forall g :: g != genre ==> (g in r <==> g in selected)
    ensures genre in selected ==> multiset(r) == multiset(selected)[genre := 0] && IsSubsequence(r, selected)
    ensures genre !in selected ==> r == selected + [genre]
  {
    if genre in selected then
      var r := RemoveAll(selected, genre);
      assert forall g :: g in r <==> g in multiset(r);
      assert forall g :: g in selected <==> g in multiset(selected);
      r
    else selected + [genre]
  }

  /** No genre is listed twice. */
  ghost predicate NoDuplicates(s: seq<string>) {
    forall g :: multiset(s)[g] <= 1
  }

  /** `[...text]`: a string spreads into its characters, one string each. */
  function Spread(text: string): seq<string> {
    seq(|text|, i requires 0 <= i < |text| => [text[i]])
  }

  /** `hasChanges`: the sorted copies of the selection and of
      `user.favoriteGenres || []` differ. A falsy saved value counts as `[]`;
      a string spreads into its characters; any other non-array value cannot
      be spread, the error is caught and the answer is "no changes". */
  function HasChanges(selected: seq<string>, saved: ListField<string>): bool {
    match saved
    case NotAList => false
    case Absent => Sort(selected) != Sort([])
    case StringValue(text) => Sort(selected) != Sort(Spread(text))
    case Items(items) => Sort(selected) != Sort(items)
  }

  /** There are unsaved changes exactly when the selection and the saved list
      do not hold the same genres the same number of times; order never
      matters. A saved string is compared as the list of its characters. The
      save control is shown on exactly these states. */
  lemma HasChangesIffDifferentElements(selected: seq<string>, saved: ListField<string>)
    ensures saved.Items? ==> (HasChanges(selected, saved) <==> multiset(selected) != multiset(saved.items))
    ensures saved.Absent? ==> (HasChanges(selected, saved) <==> selected != [])
    ensures saved.StringValue? ==> (HasChanges(selected, saved) <==> multiset(selected) != multiset(Spread(saved.text)))
    ensures saved.NotAList? ==> !HasChanges(selected, saved)
  {
    match saved
    case NotAList =>
    case Absent =>
      SortEqualIffSameElements(selected, []);
    case StringValue(text) =>
      SortEqualIffSameElements(selected, Spread(text));
    case Items(items) =>
      SortEqualIffSameElements(selected, items);
  }

  /** Right after the user record arrives there is nothing to save, unless
      the saved value is a non-empty string: the selection then starts empty
      while the comparison sees the string's characters, so the save control
      shows at once. */
  lemma ChangesAfterLoad(saved: ListField<string>)
    ensures !saved.StringValue? ==> !HasChanges(InitialSelection(saved), saved)
    ensures saved.StringValue? ==> (HasChanges(InitialSelection(saved), saved) <==> saved.text != [])
  {
    HasChangesIffDifferentElements(InitialSelection(saved), saved);
    if saved.StringValue? {
      assert |multiset(Spread(saved.text))| == |saved.text|;
    }
  }

  /** Toggling keeps a duplicate-free selection duplicate-free. */
  lemma ToggleKeepsNoDuplicates(selected: seq<string>, genre: string)
    requires NoDuplicates(selected)
    ensures NoDuplicates(Toggle(selected, genre))
  {
    if genre !in selected {
      assert multiset(selected)[genre] == 0;
      assert multiset(selected + [genre]) == multiset(selected) + multiset{genre};
    }
  }

  /** Toggling the same genre twice restores a duplicate-free selection as a
      collection, so it leaves `hasChanges` as it was; the order may change. */
  lemma ToggleTwiceSameElements(selected: seq<string>, genre: string, saved: ListField<string>)
    requires NoDuplicates(selected)
    ensures multiset(Toggle(Toggle(selected, genre), genre)) == multiset(selected)
    ensures HasChanges(Toggle(Toggle(selected, genre), genre), saved) == HasChanges(selected, saved)
  {
    var once := Toggle(selected, genre);
    var twice := Toggle(once, genre);
    var m := multiset(selected);
    if genre in selected {
      assert m[genre] == 1;
      assert multiset(once) == m[genre := 0];
      assert genre !in once;
      assert multiset(twice) == multiset(once) + multiset{genre};
      assert multiset(twice) == m;
    } else {
      assert m[genre] == 0;
      assert multiset(once) == m + multiset{genre};
      assert multiset(twice) == multiset(once)[genre := 0];
      assert multiset(twice) == m;
    }
    HasChangesIffDifferentElements(twice, saved);
    HasChangesIffDifferentElements(selected, saved);
  }

  /** The order is not restored: a removed genre comes back at the end. */
  lemma ToggleTwiceMovesGenreLast()
    ensures Toggle(Toggle(["Fiction", "Poetry"], "Fiction"), "Fiction") == ["Poetry", "Fiction"]
  {
    assert "Fiction" != "Poetry";
    assert RemoveAll(["Fiction", "Poetry"], "Fiction") == ["Poetry"];
  }
}
