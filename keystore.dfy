/**
 * Selection of the private-key file in an organisation's keystore directory
 * (`findFileSk`). The directory is given by its listing: either the listing
 * could not be produced (the directory is missing or unreadable, which is when
 * `File.listFiles` yields null) or it is the sequence of entry names, in the
 * order the file system returns them.
 */
module KeyStore {
  import opened Wrappers
  import opened Strings

  /** Names of private-key artifacts end with this suffix. */
  const KeySuffix: string := "_sk"

  datatype Listing = Unreadable | Entries(names: seq<string>)

  /** The file `findFileSk` returns: an entry `name` of directory `dir`. */
  datatype KeyFile = KeyFile(dir: string, name: string)

  datatype KeyError =
    | DirectoryUnreadable(dir: string)        // the listing was null
    | WrongKeyCount(dir: string, found: nat)  // not exactly one `_sk` entry; `found` is the count reported

  /** A private-key file name: some stem followed by `_sk`. */
  predicate IsKeyName(name: string): (b: bool)
    ensures b <==> exists stem :: name == stem + KeySuffix
  {
    if EndsWith(name, KeySuffix) then
      assert name == name[..|name| - |KeySuffix|] + KeySuffix;
      true
    else
      false
  }

  /** Positions of the listing whose names end with the key suffix: the reference for what matches. */
  ghost function KeyIndices(names: seq<string>): set<nat> {
    set i: nat | i < |names| && IsKeyName(names[i])
  }

  /**
   * The entries the `name.endsWith("_sk")` filter keeps, in listing order: exactly the
   * key-named entries, and one for each key-named position.
   */
  function KeyMatches(names: seq<string>): (r: seq<string>)
    ensures forall x :: x in r <==> x in names && IsKeyName(x)
  {
    if names == [] then
      []
    else
      var init := names[..|names| - 1];
      var last := names[|names| - 1];
      assert names == init + [last];
      KeyMatches(init) + (if IsKeyName(last) then [last] else [])
  }

  /** The filter keeps one entry per key-named position: the count `findFileSk` reports. */
  lemma {:induction false} KeyMatchesCount(names: seq<string>)
    ensures |KeyMatches(names)| == |KeyIndices(names)|
  {
    if names != [] {
      var init := names[..|names| - 1];
      var last := names[|names| - 1];
      assert names == init + [last];
      KeyIndicesSnoc(init, last);
      KeyMatchesCount(init);
    }
  }

  /** How the key positions of a listing grow by one entry. */
  lemma KeyIndicesSnoc(init: seq<string>, last: string)
    ensures KeyIndices(init + [last]) ==
            KeyIndices(init) + (if IsKeyName(last) then {|init|} else {})
    ensures |init| !in KeyIndices(init)
  {
  }

  /** `findFileSk(dir)`: the unique key file of the directory, or why there is none. */
  function FindFileSk(dir: string, listing: Listing): (r: Result<KeyFile, KeyError>)
    ensures listing.Unreadable? ==> r == Err(DirectoryUnreadable(dir))
    ensures r.Ok? ==> r.value.dir == dir && listing.Entries? && r.value.name in listing.names
                      && IsKeyName(r.value.name)
  {
    match listing
    case Unreadable => Err(DirectoryUnreadable(dir))
    case Entries(names) =>
      var matches := KeyMatches(names);
      if |matches| != 1 then Err(WrongKeyCount(dir, |matches|))
      else Ok(KeyFile(dir, matches[0]))
  }

  /** A listing with no key-named position has no matches. */
  lemma NoKeyNoMatches(names: seq<string>)
    requires KeyIndices(names) == {}
    ensures KeyMatches(names) == []
  {
    KeyMatchesCount(names);
  }

  /** When position `i` is the only key-named one, the filter keeps just that entry. */
  lemma {:induction false} SingleKeyMatches(names: seq<string>, i: nat)
    requires KeyIndices(names) == {i}
    ensures i < |names| && KeyMatches(names) == [names[i]]
  {
    assert i in KeyIndices(names);
    var init := names[..|names| - 1];
    var last := names[|names| - 1];
    assert names == init + [last];
    KeyIndicesSnoc(init, last);
    if IsKeyName(last) {
      assert |init| in KeyIndices(names);
      assert i == |init|;
      assert KeyIndices(init) == {};
      NoKeyNoMatches(init);
    } else {
      assert KeyIndices(init) == {i};
      SingleKeyMatches(init, i);
    }
  }

  /** Success case: when position `i` is the only key-named one, its entry is returned. */
  lemma FindFileSkSingle(dir: string, names: seq<string>, i: nat)
    requires KeyIndices(names) == {i}
    ensures i < |names| && FindFileSk(dir, Entries(names)) == Ok(KeyFile(dir, names[i]))
  {
    SingleKeyMatches(names, i);
  }

  /** A readable listing yields a file exactly when exactly one position is key-named. */
  lemma FindFileSkOkIff(dir: string, names: seq<string>)
    ensures FindFileSk(dir, Entries(names)).Ok? <==> |KeyIndices(names)| == 1
  {
    KeyMatchesCount(names);
  }

  /**
   * Wrong count: with zero or several key-named positions the lookup fails and reports
   * their number.
   */
  lemma FindFileSkWrongCount(dir: string, names: seq<string>)
    requires |KeyIndices(names)| != 1
    ensures FindFileSk(dir, Entries(names)) == Err(WrongKeyCount(dir, |KeyIndices(names)|))
  {
    KeyMatchesCount(names);
  }

  /** The filter distributes over concatenation of listings. */
  lemma {:induction false} KeyMatchesAppend(a: seq<string>, b: seq<string>)
    ensures KeyMatches(a + b) == KeyMatches(a) + KeyMatches(b)
    decreases |b|
  {
    if b == [] {
      assert a + b == a;
    } else {
      var binit := b[..|b| - 1];
      var last := b[|b| - 1];
      assert b == binit + [last];
      assert a + b == (a + binit) + [last];
      assert (a + b)[..|a + b| - 1] == a + binit;
      KeyMatchesAppend(a, binit);
    }
  }

  /** Entries without the key suffix never influence the result, wherever they are listed. */
  lemma NonKeyEntryIrrelevant(dir: string, before: seq<string>, other: string, after: seq<string>)
    requires !IsKeyName(other)
    ensures FindFileSk(dir, Entries(before + [other] + after)) == FindFileSk(dir, Entries(before + after))
  {
    KeyMatchesAppend(before + [other], after);
    KeyMatchesAppend(before, [other]);
    KeyMatchesAppend(before, after);
    assert KeyMatches([other]) == [] by {
      assert [other][..0] == [];
    }
  }

  /** Only the key-named entries matter: filtering the listing first changes nothing. */
  lemma {:induction false} FindFileSkOnlySeesKeys(dir: string, names: seq<string>)
    ensures FindFileSk(dir, Entries(KeyMatches(names))) == FindFileSk(dir, Entries(names))
  {
    KeyMatchesIdempotent(names);
  }

  lemma {:induction false} KeyMatchesIdempotent(names: seq<string>)
    ensures KeyMatches(KeyMatches(names)) == KeyMatches(names)
  {
    if names != [] {
      var init := names[..|names| - 1];
      var last := names[|names| - 1];
      assert names == init + [last];
      KeyMatchesIdempotent(init);
      var tail := if IsKeyName(last) then [last] else [];
      KeyMatchesAppend(KeyMatches(init), tail);
      if IsKeyName(last) {
        assert KeyMatches([last]) == [last] by {
          assert [last][..0] == [];
        }
      }
    }
  }
}
