/**
  The catalogue filter of the main page: a mod is listed when its title or
  author contains the search query, ignoring case, and it belongs to the
  selected game (or the selection is "all").
 */
module ModSearch {
  import opened Text

  datatype Mod = Mod(title: string, author: string, game: string)

  /** The value of the game selector that shows every game. */
  const AllGames := "all"

  predicate MatchesSearch(m: Mod, query: string) {
    Contains(Lower(m.title), Lower(query)) || Contains(Lower(m.author), Lower(query))
  }

  predicate MatchesGame(m: Mod, selectedGame: string) {
    selectedGame == AllGames || m.game == selectedGame
  }

  /** The predicate passed to `modsList.filter`. */
  predicate Keep(m: Mod, query: string, selectedGame: string) {
    MatchesSearch(m, query) && MatchesGame(m, selectedGame)
  }

  /** `filteredMods`. */
  function FilteredMods(mods: seq<Mod>, query: string, selectedGame: string): (r: seq<Mod>)
    ensures |r| <= |mods|
    ensures forall i :: 0 <= i < |r| ==> Keep(r[i], query, selectedGame)
  {
    if mods == [] then []
    else (if Keep(mods[0], query, selectedGame) then [mods[0]] else []) + FilteredMods(mods[1..], query, selectedGame)
  }

  /** `a` is `b` with some elements left out, in the same order. */
  predicate IsSubsequence<T(==)>(a: seq<T>, b: seq<T>)
    decreases |b|
  {
    if a == [] then true
    else if b == [] then false
    else (a[0] == b[0] && IsSubsequence(a[1..], b[1..])) || IsSubsequence(a, b[1..])
  }

  /** A mod is listed exactly when it is in the catalogue and passes the predicate. */
  lemma {:induction false} FilteredMembership(mods: seq<Mod>, query: string, selectedGame: string, m: Mod)
    ensures m in FilteredMods(mods, query, selectedGame) <==> m in mods && Keep(m, query, selectedGame)
  {
    if mods != [] {
      FilteredMembership(mods[1..], query, selectedGame, m);
      assert mods == [mods[0]] + mods[1..];
    }
  }

  /** The listing keeps the catalogue's order. */
  lemma {:induction false} FilteredIsSubsequence(mods: seq<Mod>, query: string, selectedGame: string)
    ensures IsSubsequence(FilteredMods(mods, query, selectedGame), mods)
  {
    if mods != [] {
      FilteredIsSubsequence(mods[1..], query, selectedGame);
      var rest := FilteredMods(mods[1..], query, selectedGame);
      if Keep(mods[0], query, selectedGame) {
        assert FilteredMods(mods, query, selectedGame) == [mods[0]] + rest;
      } else {
        assert FilteredMods(mods, query, selectedGame) == rest;
      }
    }
  }

  /** An empty query lists every mod of the selected game. */
  lemma {:induction false} EmptyQueryKeepsGame(mods: seq<Mod>, selectedGame: string)
    ensures forall m :: m in FilteredMods(mods, "", selectedGame) <==> m in mods && MatchesGame(m, selectedGame)
  {
    forall m
      ensures m in FilteredMods(mods, "", selectedGame) <==> m in mods && MatchesGame(m, selectedGame)
    {
      FilteredMembership(mods, "", selectedGame, m);
      ContainsEmpty(Lower(m.title));
    }
  }

  /** With an empty query and "all" games, the whole catalogue is listed. */
  lemma {:induction false} EmptyQueryAllGames(mods: seq<Mod>)
    ensures FilteredMods(mods, "", AllGames) == mods
  {
    if mods != [] {
      EmptyQueryAllGames(mods[1..]);
      ContainsEmpty(Lower(mods[0].title));
      assert Keep(mods[0], "", AllGames);
    }
  }

  /** The selection "all" imposes no restriction on the game. */
  lemma AllGamesIgnoresGame(mods: seq<Mod>, query: string, m: Mod)
    ensures m in FilteredMods(mods, query, AllGames) <==> m in mods && MatchesSearch(m, query)
  {
    FilteredMembership(mods, query, AllGames, m);
  }

  /** The query's case does not matter. */
  lemma {:induction false} QueryCaseInsensitive(mods: seq<Mod>, query: string, selectedGame: string)
    ensures FilteredMods(mods, Lower(query), selectedGame) == FilteredMods(mods, query, selectedGame)
  {
    LowerIdempotent(query);
    if mods != [] {
      QueryCaseInsensitive(mods[1..], query, selectedGame);
    }
  }

  /** Nor does the case of a mod's title and author. */
  lemma ModCaseInsensitive(m: Mod, query: string, selectedGame: string)
    ensures Keep(m.(title := Lower(m.title), author := Lower(m.author)), query, selectedGame) == Keep(m, query, selectedGame)
  {
    LowerIdempotent(m.title);
    LowerIdempotent(m.author);
  }
}
