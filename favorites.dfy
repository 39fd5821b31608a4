/** Per-session favourite chats, kept as an ordered list without duplicates
    in one JSON file per session. The file system is a map from file path
    to what the file holds; a write either replaces the file or, when it
    fails, leaves it as it was. */
module Favorites {

  const UserDataDir: string := "data/users"
  const FileSuffix: string := "_favorites.json"

  /** The session name with '/' and '\' replaced by '_'. */
  function Sanitize(session: string): (r: string)
    ensures |r| == |session|
    ensures '/' !in r && '\\' !in r
    ensures forall i :: 0 <= i < |r| && session[i] != '/' && session[i] != '\\' ==> r[i] == session[i]
    ensures forall i :: 0 <= i < |r| && (session[i] == '/' || session[i] == '\\') ==> r[i] == '_'
  {
    if |session| == 0 then ""
    else
      var c := session[0];
      [if c == '/' || c == '\\' then '_' else c] + Sanitize(session[1..])
  }

  /** `get_favorites_file_path`: the user-data directory, a separator,
      then the file name. */
  function FilePath(session: string): (r: string)
    ensures |r| == |UserDataDir| + 1 + |session| + |FileSuffix|
    ensures r[..|UserDataDir| + 1] == UserDataDir + "/"
    ensures r[|UserDataDir| + 1..|UserDataDir| + 1 + |session|] == Sanitize(session)
    ensures r[|r| - |FileSuffix|..] == FileSuffix
  {
    UserDataDir + "/" + FileName(session)
  }

  /** The file's name inside the user-data directory. */
  function FileName(session: string): (r: string)
    ensures '/' !in r && '\\' !in r
    ensures |r| == |session| + |FileSuffix|
    ensures r[..|session|] == Sanitize(session) && r[|session|..] == FileSuffix
  {
    var s := Sanitize(session);
    assert '/' !in FileSuffix && '\\' !in FileSuffix;
    s + FileSuffix
  }

  /** Every session's file lies directly inside the user-data directory:
      separators in the session name cannot leave it. */
  lemma FileStaysInDirectory(session: string)
    ensures FilePath(session)[..|UserDataDir| + 1] == UserDataDir + "/"
    ensures '/' !in FilePath(session)[|UserDataDir| + 1..]
  {
    assert FilePath(session)[|UserDataDir| + 1..] == FileName(session);
  }

  /** Two sessions that differ only in separators share one file. */
  lemma SeparatorsCollide()
    ensures FilePath("a/b") == FilePath("a_b") == FilePath("a\\b")
  {
    assert Sanitize("a/b") == "a_b" == Sanitize("a\\b");
    assert Sanitize("a_b") == "a_b";
  }

  predicate NoDups(s: seq<string>) {
    forall i, j :: 0 <= i < j < |s| ==> s[i] != s[j]
  }

  /** Position of the first occurrence of `x` in `s`. */
  function FirstIndex(s: seq<string>, x: string): (k: nat)
    requires x in s
    ensures k < |s| && s[k] == x
    ensures forall j :: 0 <= j < k ==> s[j] != x
  {
    if s[0] == x then 0 else 1 + FirstIndex(s[1..], x)
  }

  /** `list(dict.fromkeys(s))`: each id once, at its first occurrence. */
  function Dedup(s: seq<string>): (r: seq<string>)
    ensures NoDups(r)
    ensures forall x :: x in r <==> x in s
  {
    if |s| == 0 then []
    else
      var d := Dedup(s[..|s| - 1]);
      var x := s[|s| - 1];
      assert forall y :: y in s <==> y in s[..|s| - 1] || y == x by {
        assert s == s[..|s| - 1] + [x];
      }
      if x in d then d else d + [x]
  }

  /** `FirstIndex` in a prefix agrees with the whole sequence. */
  lemma FirstIndexPrefix(s: seq<string>, n: nat, x: string)
    requires n <= |s| && x in s[..n]
    ensures x in s && FirstIndex(s, x) == FirstIndex(s[..n], x)
  {
    var k := FirstIndex(s[..n], x);
    assert s[k] == x;
  }

  /** The de-duplicated list keeps the order of first occurrences. */
  lemma {:induction false} DedupKeepsFirstOccurrenceOrder(s: seq<string>)
    ensures forall i, j :: 0 <= i < j < |Dedup(s)| ==> FirstIndex(s, Dedup(s)[i]) < FirstIndex(s, Dedup(s)[j])
  {
    if |s| > 0 {
      var init := s[..|s| - 1];
      var x := s[|s| - 1];
      var d := Dedup(init);
      DedupKeepsFirstOccurrenceOrder(init);
      forall y | y in d ensures FirstIndex(s, y) == FirstIndex(init, y) < |init| {
        FirstIndexPrefix(s, |s| - 1, y);
      }
      var r := Dedup(s);
      if x in d {
        assert r == d;
      } else {
        assert r == d + [x];
        assert x !in init;
        assert FirstIndex(s, x) == |s| - 1;
        forall i, j | 0 <= i < j < |r| ensures FirstIndex(s, r[i]) < FirstIndex(s, r[j]) {
          if j < |d| {
            assert r[i] == d[i] && r[j] == d[j];
          } else {
            assert r[i] == d[i] && r[j] == x;
          }
        }
      }
    }
  }

  /** A list without duplicates is its own de-duplication. */
  lemma {:induction false} DedupOfDistinct(s: seq<string>)
    requires NoDups(s)
    ensures Dedup(s) == s
  {
    if |s| > 0 {
      var init := s[..|s| - 1];
      DedupOfDistinct(init);
      assert s[|s| - 1] !in init;
      assert init + [s[|s| - 1]] == s;
    }
  }

  /** `list.remove(x)`. */
  function RemoveFirst(s: seq<string>, x: string): (r: seq<string>)
    requires x in s
    ensures |r| == |s| - 1
  {
    if s[0] == x then s[1..] else [s[0]] + RemoveFirst(s[1..], x)
  }

  /** `list.remove(x)` drops exactly the first occurrence of `x`. */
  lemma {:induction false} RemoveFirstDropsFirst(s: seq<string>, x: string)
    requires x in s
    ensures var k := FirstIndex(s, x); RemoveFirst(s, x) == s[..k] + s[k + 1..]
  {
    if s[0] != x {
      var t := s[1..];
      var k := FirstIndex(t, x);
      RemoveFirstDropsFirst(t, x);
      assert t[..k] + t[k + 1..] == s[1..k + 1] + s[k + 2..];
      calc {
        RemoveFirst(s, x);
        [s[0]] + RemoveFirst(t, x);
        [s[0]] + (s[1..k + 1] + s[k + 2..]);
        { assert [s[0]] + s[1..k + 1] == s[..k + 1]; }
        s[..k + 1] + s[k + 2..];
      }
    }
  }

  /** What a favourites file holds: a JSON list of ids, some other JSON
      value, or something unreadable. */
  datatype Stored = Ids(ids: seq<string>) | NotAList | Unreadable

  class Store {
    /** The files under the user-data directory, by path. */
    var files: map<string, Stored>

    /** The data directory is created when missing and kept otherwise:
        `existing` are the files it already holds. */
    constructor(existing: map<string, Stored>)
      ensures files == existing
    {
      files := existing;
    }

    /** `get_favorites`: the stored list, or empty when the file is
        missing, not a list or unreadable. */
    function Favorites(session: string): (r: seq<string>)
      reads this
      ensures FilePath(session) in files && files[FilePath(session)].Ids? ==> r == files[FilePath(session)].ids
      ensures FilePath(session) !in files || !files[FilePath(session)].Ids? ==> r == []
    {
      var path := FilePath(session);
      if path in files && files[path].Ids? then files[path].ids else []
    }

    /** `is_favorite`. */
    predicate IsFavorite(session: string, chatId: string): (b: bool)
      reads this
      ensures b <==> FilePath(session) in files && files[FilePath(session)].Ids? && chatId in files[FilePath(session)].ids
    {
      chatId in Favorites(session)
    }

    /** `save_favorites`: writes the list without duplicates; reports
        whether the write succeeded. */
    method SaveFavorites(session: string, favorites: seq<string>, writeOk: bool) returns (ok: bool)
      modifies this
      ensures ok == writeOk
      ensures writeOk ==> files == old(files)[FilePath(session) := Ids(Dedup(favorites))]
      ensures !writeOk ==> files == old(files)
    {
      if writeOk {
        files := files[FilePath(session) := Ids(Dedup(favorites))];
      }
      ok := writeOk;
    }

    /** `add_favorite`: an absent id is appended and the list saved; a
        present id needs no write and is reported as success. */
    method AddFavorite(session: string, chatId: string, writeOk: bool) returns (ok: bool)
      modifies this
      ensures chatId in old(Favorites(session)) ==> ok && files == old(files)
      ensures chatId !in old(Favorites(session)) ==> ok == writeOk
      ensures chatId !in old(Favorites(session)) && writeOk ==>
                files == old(files)[FilePath(session) := Ids(Dedup(old(Favorites(session)) + [chatId]))]
      ensures !writeOk ==> files == old(files)
      ensures ok ==> IsFavorite(session, chatId)
    {
      var favorites := Favorites(session);
      if chatId !in favorites {
        favorites := favorites + [chatId];
        ok := SaveFavorites(session, favorites, writeOk);
        return;
      }
      ok := true;
    }

    /** `remove_favorite`: the first occurrence of a present id is removed
        and the list saved; an absent id needs no write and is reported as
        success. */
    method RemoveFavorite(session: string, chatId: string, writeOk: bool) returns (ok: bool)
      modifies this
      ensures chatId !in old(Favorites(session)) ==> ok && files == old(files)
      ensures chatId in old(Favorites(session)) ==> ok == writeOk
      ensures chatId in old(Favorites(session)) && writeOk ==>
                files == old(files)[FilePath(session) := Ids(Dedup(RemoveFirst(old(Favorites(session)), chatId)))]
      ensures !writeOk ==> files == old(files)
    {
      var favorites := Favorites(session);
      if chatId in favorites {
        favorites := RemoveFirst(favorites, chatId);
        ok := SaveFavorites(session, favorites, writeOk);
        return;
      }
      ok := true;
    }
  }

  /** Adding to a list without duplicates appends at the end and keeps the
      others in order. */
  lemma AddAppends(favorites: seq<string>, chatId: string)
    requires NoDups(favorites) && chatId !in favorites
    ensures Dedup(favorites + [chatId]) == favorites + [chatId]
  {
    DedupOfDistinct(favorites + [chatId]);
  }

  /** Dropping one position of a list without duplicates leaves a list
      without duplicates that no longer holds that element. */
  lemma DropDistinct(s: seq<string>, k: nat)
    requires NoDups(s) && k < |s|
    ensures NoDups(s[..k] + s[k + 1..])
    ensures s[k] !in s[..k] + s[k + 1..]
  {
    var r := s[..k] + s[k + 1..];
    assert forall i :: 0 <= i < |r| ==> r[i] == s[if i < k then i else i + 1];
  }

  /** Removing from a list without duplicates drops exactly that id and
      keeps the others in order. */
  lemma RemoveDrops(favorites: seq<string>, chatId: string)
    requires NoDups(favorites) && chatId in favorites
    ensures var k := FirstIndex(favorites, chatId);
            Dedup(RemoveFirst(favorites, chatId)) == favorites[..k] + favorites[k + 1..]
    ensures chatId !in Dedup(RemoveFirst(favorites, chatId))
  {
    var k := FirstIndex(favorites, chatId);
    RemoveFirstDropsFirst(favorites, chatId);
    DropDistinct(favorites, k);
    DedupOfDistinct(RemoveFirst(favorites, chatId));
  }

  /** In a hand-edited file that lists an id twice, removing it keeps it:
      only the first copy is removed before the list is de-duplicated. */
  lemma RemoveKeepsDuplicatedId()
    ensures Dedup(RemoveFirst(["x", "x"], "x")) == ["x"]
  {
    assert RemoveFirst(["x", "x"], "x") == ["x"];
    assert Dedup(["x"]) == ["x"] by { assert ["x"][..0] == []; }
  }

  /** Adding twice writes once: the second add finds the id and leaves the
      files untouched. */
  method AddIsIdempotent(store: Store, session: string, chatId: string, writeOk: bool)
    returns (first: bool, second: bool)
    modifies store
    ensures second
    ensures first ==> store.IsFavorite(session, chatId)
    ensures store.files == old(store.files)
            || store.files == old(store.files)[FilePath(session) := Ids(Dedup(old(store.Favorites(session)) + [chatId]))]
  {
    first := store.AddFavorite(session, chatId, writeOk);
    if first {
      ghost var between := store.files;
      second := store.AddFavorite(session, chatId, writeOk);
      assert store.files == between;
    } else {
      second := true;
    }
  }
}
