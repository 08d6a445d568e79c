/** `viewFavoriteProducts`, the one customer operation whose query is
    assembled from the operator's answers. */
module CustomerOperations {
  import opened Common
  import opened Validator
  import opened Backend
  import opened Existence
  import opened Sql
  import opened Assembler
  import opened Accounts
  import opened Outcomes

  /** Open to every user: a store answer other than "-" must be an existing
      store, and then the session's ten favourite products are listed. */
  function FavoriteProductsRun(answer: string -> Answer, session: Fields, input: seq<string>): Run
  {
    if |input| == 0 then Run(Failed, [], 0)
    else
      var store := input[0];
      if store != Dash && !StoreExists(answer, store) then Run(Invalid, StoreCheckCalls(store), 1)
      else
        var lookups := if store == Dash then [] else StoreCheckCalls(store);
        Run(Done, lookups + [Query(SelectText(FavoritesSelect(Show(session.userID), store)))], 1)
  }

  /** The listing is always the session user's own, it reads nothing but
      queries, and it is per store exactly when a store was given. */
  lemma FavoritesAreOwn(answer: string -> Answer, session: Fields, input: seq<string>)
    ensures var r := FavoriteProductsRun(answer, session, input);
      Updates(r.calls) == [] &&
      (r.outcome == Done <==> |input| > 0 && StoreOrAll(answer, input[0])) &&
      (r.outcome == Done ==>
        r.calls[|r.calls| - 1] == Query(SelectText(FavoritesSelect(Show(session.userID), input[0]))) &&
        FavoritesSelect(Show(session.userID), input[0]).where[0] == "customerID = " + Show(session.userID) &&
        (Plain("storeID") in FavoritesSelect(Show(session.userID), input[0]).columns <==> input[0] != Dash))
  {
    var r := FavoriteProductsRun(answer, session, input);
    if |input| > 0 {
      StoreCheckWritesNothing(input[0]);
      FavoritesConsistent(Show(session.userID), input[0]);
      if r.outcome == Done {
        var lookups := if input[0] == Dash then [] else StoreCheckCalls(input[0]);
        UpdatesAppend(lookups, [Query(SelectText(FavoritesSelect(Show(session.userID), input[0])))]);
        QueriesWriteNothing([Query(SelectText(FavoritesSelect(Show(session.userID), input[0])))]);
      }
    }
  }

  method ViewFavoriteProducts(db: Database, console: Console, session: Session) returns (outcome: Outcome)
    requires console.Valid()
    modifies db, console
    ensures console.Valid()
    ensures var r := FavoriteProductsRun(db.answer, session.Current(), old(console.lines[console.pos..]));
      outcome == r.outcome && db.log == old(db.log) + r.calls && console.pos == old(console.pos) + r.consumed
  {
    var line := console.ReadLine();
    if line.None? {
      return Failed;
    }
    var store := line.value;
    if store != Dash {
      var known := ValidStoreID(db, store);
      if !known {
        return Invalid;
      }
    }
    var q := FavoriteProductsQuery(Show(session.userID), store);
    var _ := db.RunQuery(SelectText(q));
    outcome := Done;
  }
}
