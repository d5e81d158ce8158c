/**
 * Properties of the review dialogue that relate several handlers or several
 * turns: what one reply's contexts make the next handler do.
 */
module ReviewProperties {
  import opened Wrappers
  import opened PyValues
  import opened ReviewFlow

  /** Sending the product as a one-element list or as a scalar makes no
      difference to the start of the dialogue. */
  lemma StartListOrScalar(params: map<string, Value>, v: Value, session: string,
                          names: seq<string>, catalog: set<string>)
    requires !v.List?
    ensures Start(params[ProductKey := List([v])], session, names, catalog)
         == Start(params[ProductKey := v], session, names, catalog)
  {
    assert ParamProduct(params[ProductKey := List([v])]) == v;
    assert ParamProduct(params[ProductKey := v]) == v;
  }

  /** A context the handlers emit is the one the next handler looks up. */
  lemma {:induction false} EmittedContextIsFound(session: string, stage: string, p: map<string, Value>)
    ensures FirstMatching([Emit(session, stage, p)], stage) == Some(0)
    ensures ParamsOf([Emit(session, stage, p)], stage) == p
  {
    ContextNameEndsWithStage(session, stage);
  }

  lemma NameListCons(h: string, t: seq<string>)
    ensures NameList([h] + t).items == [Str(h)] + NameList(t).items
  {
  }

  /** The carried list with a product removed is the list of the other names. */
  lemma {:induction false} NameListRemoveAll(names: seq<string>, s: string)
    ensures RemoveAll(NameList(names).items, Str(s)) == NameList(RemoveAll(names, s)).items
  {
    if names != [] {
      var h, t := names[0], names[1..];
      assert names == [h] + t;
      NameListCons(h, t);
      NameListRemoveAll(t, s);
      var items := NameList(names).items;
      assert items[0] == Str(h) && items[1..] == NameList(t).items;
      if h == s {
        assert RemoveAll(items, Str(s)) == RemoveAll(NameList(t).items, Str(s));
        assert RemoveAll(names, s) == RemoveAll(t, s);
      } else {
        assert RemoveAll(items, Str(s)) == [Str(h)] + RemoveAll(NameList(t).items, Str(s));
        assert RemoveAll(names, s) == [h] + RemoveAll(t, s);
        NameListCons(h, RemoveAll(t, s));
      }
    }
  }

  /** A review drafted by `details_collect` and submitted on the next turn,
      with the same unreviewed names and a working insert, is stored once:
      the finalize context then lists the other names in their order. */
  lemma DraftThenSubmit(params: map<string, Value>, contexts: seq<Context>, session: string, names: seq<string>)
    requires DetailsCollect(params, contexts, session, names).outcome == ReviewDrafted
    ensures var draft := DetailsCollect(params, contexts, session, names).outputContexts[0].parameters;
      var p := draft[ProductKey];
      var sub := Submit(DetailsCollect(params, contexts, session, names).outputContexts, session, names, true);
      && p.Str? && p.s in names
      && sub.reply.outcome == Submitted
      && sub.insertCalls == [Review(p, CustomerId, draft[RatingKey], FirstIfList(draft[CommentKey], Str("")))]
      && draft[RatingKey].Float? && 1.0 <= draft[RatingKey].x <= 5.0
      && sub.reply.outputContexts ==
           [Emit(session, FinalizeStage, map[UnreviewedKey := NameList(RemoveAll(names, p.s))])]
  {
    var reply := DetailsCollect(params, contexts, session, names);
    var ctx := reply.outputContexts[0];
    var draft := ctx.parameters;
    assert reply.outputContexts == [Emit(session, ConfirmStage, draft)];
    EmittedContextIsFound(session, ConfirmStage, draft);
    var p := draft[ProductKey];
    assert ConfirmedProduct(reply.outputContexts) == p;
    assert ConfirmedRating(reply.outputContexts) == draft[RatingKey];
    assert Carried(reply.outputContexts, names) == NameList(names);
    assert Str(p.s) in NameList(names).items by {
      var k :| 0 <= k < |names| && names[k] == p.s;
      assert NameList(names).items[k] == Str(p.s);
    }
    NameListRemoveAll(names, p.s);
  }

  /** The quirk of main.py:295: a new rating whose digits read 0 is falsy, so
      it escapes the range check and replaces the old rating. */
  lemma ZeroRatingOverrides(params: map<string, Value>, contexts: seq<Context>)
    requires Get(params, NewRatingKey, Null) == Str("0")
    ensures MergedRating(params, contexts) == Float(0.0)
  {
    assert Digits("0") == "0";
    assert DigitsValue("0") == 0 by {
      assert "0"[..0] == "";
    }
  }

  /** An edit that set the rating to 0 is refused at submission: nothing is
      inserted and the dialogue goes back to `submit_review_active`. */
  lemma ZeroRatingEditBlocksSubmit(params: map<string, Value>, contexts: seq<Context>, session: string,
                                   names: seq<string>, later: seq<string>, insertOk: bool)
    requires Get(params, NewRatingKey, Null) == Str("0")
    requires Truthy(ConfirmedProduct(contexts))
    ensures var e := Edit(params, contexts, session, names);
      && e.outcome == EditApplied
      && e.outputContexts[0].parameters[RatingKey] == Float(0.0)
      && var s := Submit(e.outputContexts, session, later, insertOk);
         s.insertCalls == [] && s.reply.outcome == SubmitIncomplete
  {
    ZeroRatingOverrides(params, contexts);
    var e := Edit(params, contexts, session, names);
    EmittedContextIsFound(session, ConfirmStage, e.outputContexts[0].parameters);
    assert ConfirmedRating(e.outputContexts) == Float(0.0);
  }

  /** A whole number typed as the new rating: 1 to 5 is taken, 0 is taken by
      the quirk above, anything larger is dropped. */
  lemma {:induction false} EditedWholeNumber(n: nat)
    ensures EditedRating(Str(NatText(n))) == if n <= 5 then Float(n as real) else Null
  {
    NatTextRoundTrip(n);
    assert Digits(NatText(n)) == NatText(n);
  }

  /** A numeric new rating 1 to 5 sent as a JSON integer is taken as it is. */
  lemma IntegerNewRating(n: int)
    requires 1 <= n <= 5
    ensures EditedRating(Int(n)) == Float(n as real)
  {
    assert PyStr(Int(n)) == NatText(n);
    EditedWholeNumber(n);
  }

  /** The same rating sent as a JSON float reads "4.0", whose digits form 40:
      it is dropped and the old rating stays. */
  lemma FloatNewRatingDropped()
    ensures EditedRating(Float(4.0)) == Null
  {
    assert FloatText(4.0) == "4.0";
    assert Digits("4.0") == "40";
    assert DigitsValue("40") == 40 by {
      assert "40"[..1] == "4";
      assert "4"[..0] == "";
    }
  }

  /** An edit without a new comment keeps the comment of the confirm context. */
  lemma EditKeepsComment(params: map<string, Value>, contexts: seq<Context>, session: string, names: seq<string>)
    requires !Truthy(FirstIfList(Get(params, NewCommentKey, Null), Null))
    requires Edit(params, contexts, session, names).outcome == EditApplied
    ensures Edit(params, contexts, session, names).outputContexts[0].parameters[CommentKey]
         == ConfirmedComment(contexts, Null)
  {
  }

  /** A successful edit passes product and unreviewed list through unchanged. */
  lemma EditPassesThrough(params: map<string, Value>, contexts: seq<Context>, session: string, names: seq<string>)
    requires Edit(params, contexts, session, names).outcome == EditApplied
    ensures var out := Edit(params, contexts, session, names).outputContexts[0].parameters;
      && out[ProductKey] == ConfirmedProduct(contexts)
      && out[UnreviewedKey] == ConfirmedUnreviewed(contexts)
      && Truthy(out[ProductKey])
  {
  }

  /** A successful submission drops every occurrence of the product from a
      carried list and keeps all other entries, in order. */
  lemma {:induction false} SubmittedListDropsProduct(contexts: seq<Context>, session: string, names: seq<string>)
    requires Submit(contexts, session, names, true).reply.outcome == Submitted
    requires Carried(contexts, names).List?
    ensures var items := Carried(contexts, names).items;
      var left := Submit(contexts, session, names, true).reply.outputContexts[0].parameters[UnreviewedKey];
      var p := ConfirmedProduct(contexts);
      && left == List(RemoveAll(items, p))
      && p !in left.items
      && forall y :: y != p ==> multiset(left.items)[y] == multiset(items)[y]
  {
    var items := Carried(contexts, names).items;
    var p := ConfirmedProduct(contexts);
    assert p == Str(p.s);
    if p !in items {
      assert RemoveAll(items, p) == items by {
        RemoveAllAbsent(items, p);
      }
    }
  }

  lemma {:induction false} RemoveAllAbsent<T(!new)>(xs: seq<T>, x: T)
    requires x !in xs
    ensures RemoveAll(xs, x) == xs
  {
    if xs != [] {
      RemoveAllAbsent(xs[1..], x);
    }
  }

  /** When the carried list is a number, `in` raises after `insert_review`
      has returned: the review is stored yet the reply asks to try again. */
  lemma SubmitFailsAfterStoring(contexts: seq<Context>, session: string, names: seq<string>)
    requires Truthy(ConfirmedProduct(contexts)) && Truthy(ConfirmedRating(contexts))
    requires InNames(ConfirmedProduct(contexts), names)
    requires ConfirmedUnreviewed(contexts) == Int(3)
    ensures var s := Submit(contexts, session, names, true);
      s.insertCalls != [] && s.reply.outcome == SubmitFailed
  {
  }

  /** A product accepted by `submit_review_start` is the one
      `submit_review_product_confirm` works on when the next request names
      no product: it finds it in the active context. */
  lemma ConfirmTakesStartedProduct(params: map<string, Value>, next: map<string, Value>, session: string,
                                   names: seq<string>, catalog: set<string>)
    requires Start(params, session, names, catalog).outcome == ProductAccepted
    requires !Truthy(ParamProduct(next))
    ensures var r := ProductConfirm(next, Start(params, session, names, catalog).outputContexts, session, names, catalog);
      && r.outcome == ProductAccepted
      && r.outputContexts[0].parameters[ProductKey] == ParamProduct(params)
  {
    var s := Start(params, session, names, catalog);
    EmittedContextIsFound(session, ActiveStage, s.outputContexts[0].parameters);
    assert s.outputContexts == [Emit(session, ActiveStage, s.outputContexts[0].parameters)];
  }

  /** Without a `submit_review_confirm` context among the incoming ones,
      a submission stores nothing and an edit is refused. */
  lemma SubmitNeedsConfirmContext(contexts: seq<Context>, session: string, names: seq<string>,
                                  insertOk: bool, params: map<string, Value>)
    requires FirstMatching(contexts, ConfirmStage).None?
    ensures Submit(contexts, session, names, insertOk).insertCalls == []
    ensures Edit(params, contexts, session, names).outcome == EditIncomplete
  {
  }

  /** A whole number followed by text without digits, as in "4 stars": the
      number is taken when at most 5 and dropped otherwise. */
  lemma {:induction false} EditedNumberWithText(n: nat, t: string)
    requires forall c <- t :: !IsDigit(c)
    ensures EditedRating(Str(NatText(n) + t)) == if n <= 5 then Float(n as real) else Null
  {
    NatTextRoundTrip(n);
    DigitsConcat(NatText(n), t);
    DigitsOfNonDigits(t);
    assert Digits(NatText(n) + t) == NatText(n);
  }

  /** The example the edit handler is written for: "4 stars" gives 4. */
  lemma FourStars()
    ensures EditedRating(Str("4 stars")) == Float(4.0)
  {
    assert NatText(4) + " stars" == "4 stars";
    EditedNumberWithText(4, " stars");
  }

  /** A typed new rating replaces the old one when it is at most 5; a larger
      one is discarded and the carried rating is kept. */
  lemma TypedRatingMerge(params: map<string, Value>, contexts: seq<Context>, n: nat, t: string)
    requires Get(params, NewRatingKey, Null) == Str(NatText(n) + t)
    requires forall c <- t :: !IsDigit(c)
    ensures MergedRating(params, contexts)
         == if n <= 5 then Float(n as real) else OldRating(ConfirmedRating(contexts))
  {
    EditedNumberWithText(n, t);
  }

  /** An applied edit with a truthy new comment stores that comment. */
  lemma EditTakesNewComment(params: map<string, Value>, contexts: seq<Context>, session: string, names: seq<string>)
    requires Truthy(FirstIfList(Get(params, NewCommentKey, Null), Null))
    requires Edit(params, contexts, session, names).outcome == EditApplied
    ensures Edit(params, contexts, session, names).outputContexts[0].parameters[CommentKey]
         == FirstIfList(Get(params, NewCommentKey, Null), Null)
  {
  }

  /** A carried rating typed as "0" is read as 0.0, which is not None: the
      edit applies with rating 0.0. */
  lemma CarriedZeroRatingKept(params: map<string, Value>, contexts: seq<Context>, session: string, names: seq<string>)
    requires Truthy(ConfirmedProduct(contexts)) && ConfirmedRating(contexts) == Str("0")
    requires NewRatingKey !in params
    ensures Edit(params, contexts, session, names).outcome == EditApplied
    ensures Edit(params, contexts, session, names).outputContexts[0].parameters[RatingKey] == Float(0.0)
  {
    ParseWholeNumber(0);
    assert NatText(0) == "0";
  }
}
