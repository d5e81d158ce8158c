/**
 * The product-review dialogue of the webhook (main.py:48-557).
 *
 * Each intent handler is a function of what it reads: the request
 * parameters, the output contexts the dialog platform sends back, the session
 * id (it only names contexts), and what the database returns that turn: the
 * names of the customer's unreviewed products and the catalog of products
 * whose details can be fetched. A reply is an outcome tag, standing for the
 * fulfillment text, and the output contexts that steer the next turn:
 * `submit_review_active`, then `submit_review_confirm`, then
 * `submit_review_finalize`, or none at all.
 */
module ReviewFlow {
  import opened Wrappers
  import opened PyValues

  const ActiveStage := "submit_review_active"
  const ConfirmStage := "submit_review_confirm"
  const FinalizeStage := "submit_review_finalize"
  /** Every context the handlers emit lives for five turns. */
  const Lifespan := 5
  /** The reviewing customer is fixed (main.py:11). */
  const CustomerId := 1

  const ProductKey := "product"
  const RatingKey := "rating"
  const CommentKey := "comment"
  const UnreviewedKey := "unreviewed_products"
  const NewRatingKey := "new_rating"
  const NewCommentKey := "new_comment"

  datatype Context = Context(name: string, lifespanCount: int, parameters: map<string, Value>)

  /** What the fulfillment text of a reply says. */
  datatype Outcome =
    | NoUnreviewed       // nothing left to review
    | ChooseProduct      // lists the unreviewed products and asks for one
    | ProductAccepted    // a product is selected; asks for rating and comment
    | ProductRejected    // the product is not among the unreviewed ones
    | AskRating          // a rating is missing
    | InvalidRating      // the rating is not a number in [1, 5]
    | ReviewDrafted      // shows the review and asks for confirmation
    | EditApplied        // shows the edited review
    | EditIncomplete     // product or rating missing after the edit
    | SubmitIncomplete   // product or rating missing at submission
    | SubmitIneligible   // the product is no longer unreviewed
    | Submitted          // the review was stored
    | SubmitFailed       // storing the review raised
    | Ended
    | Cancelled

  datatype Reply = Reply(outcome: Outcome, outputContexts: seq<Context>)

  /** One call of `insert_review(product, customer_id, rating, comment)`. */
  datatype Review = Review(product: Value, customerId: int, rating: Value, comment: Value)

  /** The reply of the submit handler and the insert calls it made. */
  datatype Submission = Submission(reply: Reply, insertCalls: seq<Review>)

  // ---------------------------------------------------------------------
  // Contexts

  function ContextName(session: string, stage: string): string {
    "projects/" + session + "/agent/sessions/" + session + "/contexts/" + stage
  }

  predicate EndsWith(s: string, suffix: string) {
    |suffix| <= |s| && s[|s| - |suffix|..] == suffix
  }

  lemma ContextNameEndsWithStage(session: string, stage: string)
    ensures EndsWith(ContextName(session, stage), stage)
  {
    var pre := "projects/" + session + "/agent/sessions/" + session + "/contexts/";
    assert ContextName(session, stage) == pre + stage;
    assert (pre + stage)[|pre|..] == stage;
  }

  function Emit(session: string, stage: string, parameters: map<string, Value>): Context {
    Context(ContextName(session, stage), Lifespan, parameters)
  }

  /** The position of the first context whose name ends with `suffix`: the
      loops at main.py:110-114, 178-182, 258-265 and 349-356 stop there. */
  function FirstMatching(contexts: seq<Context>, suffix: string): (r: Option<nat>)
    ensures r.Some? ==> r.value < |contexts| && EndsWith(contexts[r.value].name, suffix)
    ensures r.Some? ==> forall j :: 0 <= j < r.value ==> !EndsWith(contexts[j].name, suffix)
    ensures r.None? ==> forall j :: 0 <= j < |contexts| ==> !EndsWith(contexts[j].name, suffix)
  {
    if contexts == [] then None
    else if EndsWith(contexts[0].name, suffix) then Some(0)
    else match FirstMatching(contexts[1..], suffix)
      case None => None
      case Some(k) => Some(k + 1)
  }

  /** The parameters of the first matching context, `{}` when none matches. */
  function ParamsOf(contexts: seq<Context>, suffix: string): map<string, Value> {
    match FirstMatching(contexts, suffix)
    case Some(k) => contexts[k].parameters
    case None => map[]
  }

  // ---------------------------------------------------------------------
  // Shared rules

  /** The unreviewed names as the list the contexts carry. */
  function NameList(names: seq<string>): (v: Value)
    ensures v.List? && |v.items| == |names|
    ensures forall k :: 0 <= k < |names| ==> v.items[k] == Str(names[k])
  {
    List(seq(|names|, k requires 0 <= k < |names| => Str(names[k])))
  }

  /** `product in product_names`: only a string equals a string. */
  predicate InNames(product: Value, names: seq<string>) {
    product.Str? && product.s in names
  }

  /** `get_product_details(product)` found a row. */
  predicate DetailsFound(product: Value, catalog: set<string>) {
    product.Str? && product.s in catalog
  }

  /** The `product` parameter after the scalar-or-list normalisation. */
  function ParamProduct(params: map<string, Value>): Value {
    FirstIfList(Get(params, ProductKey, Null), Null)
  }

  /** A missing product is taken from the first `submit_review_active`
      context (main.py:109-114, 177-182); when no context matches, the
      falsy parameter value stays. */
  function ResolveProduct(product: Value, contexts: seq<Context>): (r: Value)
    ensures Truthy(product) ==> r == product
    ensures !Truthy(product) ==>
      || (exists i :: 0 <= i < |contexts| && EndsWith(contexts[i].name, ActiveStage)
            && (forall j :: 0 <= j < i ==> !EndsWith(contexts[j].name, ActiveStage))
            && r == Get(contexts[i].parameters, ProductKey, Null))
      || ((forall i :: 0 <= i < |contexts| ==> !EndsWith(contexts[i].name, ActiveStage)) && r == product)
  {
    if Truthy(product) then product
    else match FirstMatching(contexts, ActiveStage)
      case Some(k) => Get(contexts[k].parameters, ProductKey, Null)
      case None => product
  }

  /** Every context that carries a product carries one of the unreviewed names. */
  predicate ProductGate(r: Reply, names: seq<string>) {
    forall c <- r.outputContexts ::
      ProductKey in c.parameters ==> InNames(c.parameters[ProductKey], names)
  }

  /** A single `submit_review_active` context holding the unreviewed names,
      and the product exactly when `product` is Some. */
  predicate ActiveOffer(r: Reply, session: string, names: seq<string>, product: Option<Value>) {
    && |r.outputContexts| == 1
    && r.outputContexts[0].name == ContextName(session, ActiveStage)
    && r.outputContexts[0].lifespanCount == Lifespan
    && r.outputContexts[0].parameters ==
         if product.Some? then map[UnreviewedKey := NameList(names), ProductKey := product.value]
         else map[UnreviewedKey := NameList(names)]
  }

  /** The common shape of `submit_review_start` and `submit_review_continue`. */
  function Offer(session: string, product: Value, names: seq<string>, catalog: set<string>, empty: Outcome): Reply {
    var list := map[UnreviewedKey := NameList(names)];
    if names == [] then Reply(empty, [])
    else if !Truthy(product) then Reply(ChooseProduct, [Emit(session, ActiveStage, list)])
    else if DetailsFound(product, catalog) && InNames(product, names) then
      Reply(ProductAccepted, [Emit(session, ActiveStage, list[ProductKey := product])])
    else Reply(ProductRejected, [Emit(session, ActiveStage, list)])
  }

  // ---------------------------------------------------------------------
  // Handlers

  /** `submit_review_start` (main.py:48-97). */
  function Start(params: map<string, Value>, session: string, names: seq<string>, catalog: set<string>): (r: Reply)
    ensures r.outputContexts == [] <==> names == []
    ensures names == [] ==> r.outcome == NoUnreviewed
    ensures r.outcome == ProductAccepted <==>
      && names != [] && Truthy(ParamProduct(params))
      && DetailsFound(ParamProduct(params), catalog) && InNames(ParamProduct(params), names)
    ensures names != [] && !Truthy(ParamProduct(params)) ==> r.outcome == ChooseProduct
    ensures var p := ParamProduct(params);
      names != [] && Truthy(p) && !(DetailsFound(p, catalog) && InNames(p, names)) ==> r.outcome == ProductRejected
    ensures names != [] ==>
      var p := ParamProduct(params);
      var ok := Truthy(p) && DetailsFound(p, catalog) && InNames(p, names);
      ActiveOffer(r, session, names, if ok then Some(p) else None)
    ensures ProductGate(r, names)
  {
    Offer(session, ParamProduct(params), names, catalog, NoUnreviewed)
  }

  /** `submit_review_continue` (main.py:444-496): start again after a review. */
  function Continue(params: map<string, Value>, session: string, names: seq<string>, catalog: set<string>): (r: Reply)
    ensures r.outputContexts == [] <==> names == []
    ensures r.outcome == NoUnreviewed <==> names == []
    ensures r.outcome == ProductAccepted <==>
      && names != [] && Truthy(ParamProduct(params))
      && DetailsFound(ParamProduct(params), catalog) && InNames(ParamProduct(params), names)
    ensures names != [] && !Truthy(ParamProduct(params)) ==> r.outcome == ChooseProduct
    ensures var p := ParamProduct(params);
      names != [] && Truthy(p) && !(DetailsFound(p, catalog) && InNames(p, names)) ==> r.outcome == ProductRejected
    ensures names != [] ==>
      ActiveOffer(r, session, names, if r.outcome == ProductAccepted then Some(ParamProduct(params)) else None)
    ensures ProductGate(r, names)
  {
    Offer(session, ParamProduct(params), names, catalog, NoUnreviewed)
  }

  /** `submit_review_product_confirm` (main.py:99-161). The initial comment
      it reads only appears in the text. */
  function ProductConfirm(params: map<string, Value>, contexts: seq<Context>, session: string,
                          names: seq<string>, catalog: set<string>): (r: Reply)
    ensures var p := ResolveProduct(ParamProduct(params), contexts);
      && (r.outcome == ProductAccepted <==> Truthy(p) && DetailsFound(p, catalog) && InNames(p, names))
      && (!Truthy(p) ==> r.outcome == ChooseProduct)
      && (Truthy(p) && !(DetailsFound(p, catalog) && InNames(p, names)) ==> r.outcome == ProductRejected)
      && ActiveOffer(r, session, names, if r.outcome == ProductAccepted then Some(p) else None)
    ensures ProductGate(r, names)
  {
    var product := ResolveProduct(ParamProduct(params), contexts);
    var list := map[UnreviewedKey := NameList(names)];
    if !Truthy(product) then Reply(ChooseProduct, [Emit(session, ActiveStage, list)])
    else if !DetailsFound(product, catalog) || !InNames(product, names) then
      Reply(ProductRejected, [Emit(session, ActiveStage, list)])
    else Reply(ProductAccepted, [Emit(session, ActiveStage, list[ProductKey := product])])
  }

  /** `float(rating)` accepted only within [1, 5] (main.py:216-219). */
  function ValidRating(rating: Value): (r: Option<real>)
    ensures r.Some? <==> ParseFloat(rating).Some? && 1.0 <= ParseFloat(rating).value <= 5.0
    ensures r.Some? ==> r == ParseFloat(rating)
  {
    match ParseFloat(rating)
    case Some(x) => if x < 1.0 || x > 5.0 then None else Some(x)
    case None => None
  }

  /** `submit_review_details_collect` (main.py:163-250). */
  function DetailsCollect(params: map<string, Value>, contexts: seq<Context>, session: string,
                          names: seq<string>): (r: Reply)
    ensures |r.outputContexts| == 1
    ensures ProductGate(r, names)
    ensures var p := ResolveProduct(ParamProduct(params), contexts);
      var rating := FirstIfList(Get(params, RatingKey, Null), Null);
      && (r.outcome == ReviewDrafted <==>
            Truthy(p) && InNames(p, names) && Truthy(rating) && ValidRating(rating).Some?)
      && (!(Truthy(p) && InNames(p, names)) ==>
            r.outcome == if names == [] then NoUnreviewed else ProductRejected)
      && (Truthy(p) && InNames(p, names) && !Truthy(rating) ==> r.outcome == AskRating)
      && (Truthy(p) && InNames(p, names) && Truthy(rating) && ValidRating(rating).None? ==>
            r.outcome == InvalidRating)
      && (r.outcome == ReviewDrafted ==>
            r.outputContexts[0] == Emit(session, ConfirmStage, map[
              ProductKey := p,
              RatingKey := Float(ValidRating(rating).value),
              CommentKey := FirstIfList(Get(params, CommentKey, Str("")), Str("")),
              UnreviewedKey := NameList(names)]))
      && (r.outcome != ReviewDrafted ==>
            ActiveOffer(r, session, names, if Truthy(p) && InNames(p, names) then Some(p) else None))
  {
    var product := ResolveProduct(ParamProduct(params), contexts);
    var rating := FirstIfList(Get(params, RatingKey, Null), Null);
    var comment := FirstIfList(Get(params, CommentKey, Str("")), Str(""));
    var list := map[UnreviewedKey := NameList(names)];
    if !Truthy(product) || !InNames(product, names) then
      Reply(if names == [] then NoUnreviewed else ProductRejected, [Emit(session, ActiveStage, list)])
    else if !Truthy(rating) then
      Reply(AskRating, [Emit(session, ActiveStage, list[ProductKey := product])])
    else match ValidRating(rating)
      case None => Reply(InvalidRating, [Emit(session, ActiveStage, list[ProductKey := product])])
      case Some(x) =>
        Reply(ReviewDrafted, [Emit(session, ConfirmStage, map[
          ProductKey := product, RatingKey := Float(x), CommentKey := comment, UnreviewedKey := NameList(names)])])
  }

  /** The product of the first `submit_review_confirm` context, normalised. */
  function ConfirmedProduct(contexts: seq<Context>): Value {
    FirstIfList(Get(ParamsOf(contexts, ConfirmStage), ProductKey, Null), Null)
  }

  function ConfirmedRating(contexts: seq<Context>): Value {
    FirstIfList(Get(ParamsOf(contexts, ConfirmStage), RatingKey, Null), Null)
  }

  /** The comment of the confirm context; an empty list becomes `empty`. */
  function ConfirmedComment(contexts: seq<Context>, empty: Value): Value {
    FirstIfList(Get(ParamsOf(contexts, ConfirmStage), CommentKey, Null), empty)
  }

  /** The unreviewed list the confirm context carries, as it is. */
  function ConfirmedUnreviewed(contexts: seq<Context>): Value {
    Get(ParamsOf(contexts, ConfirmStage), UnreviewedKey, Null)
  }

  /** `float(rating) if rating else None`, a failure giving None (main.py:281-284). */
  function OldRating(rating: Value): (r: Value)
    ensures r == Null || (r.Float? && Truthy(rating) && ParseFloat(rating) == Some(r.x))
    ensures Truthy(rating) && ParseFloat(rating).Some? ==> r == Float(ParseFloat(rating).value)
  {
    if Truthy(rating) then
      match ParseFloat(rating)
      case Some(x) => Float(x)
      case None => Null
    else Null
  }

  /** The new rating of an edit (main.py:287-298): the number formed by the
      digits of `str(new_rating)`, dropped when outside [1, 5] unless it is 0. */
  function EditedRating(newRating: Value): (r: Value)
    ensures !Truthy(newRating) ==> r == newRating
    ensures Truthy(newRating) ==> r == Null || (r.Float? && (r.x == 0.0 || 1.0 <= r.x <= 5.0))
    ensures Truthy(newRating) ==>
      var d := Digits(PyStr(newRating));
      && (r != Null <==> d != "" && DigitsValue(d) <= 5)
      && (r != Null ==> r == Float(DigitsValue(d) as real))
  {
    if !Truthy(newRating) then newRating
    else
      var d := Digits(PyStr(newRating));
      if d == "" then Null
      else
        var x := DigitsValue(d);
        if x != 0 && (x < 1 || x > 5) then Null else Float(x as real)
  }

  /** `new_rating if new_rating is not None and new_rating != "" else rating` (main.py:307). */
  function MergedRating(params: map<string, Value>, contexts: seq<Context>): (r: Value)
    ensures var n := EditedRating(FirstIfList(Get(params, NewRatingKey, Null), Null));
      && (n == Null || n == Str("") ==> r == OldRating(ConfirmedRating(contexts)))
      && (n != Null && n != Str("") ==> r == n)
  {
    var n := EditedRating(FirstIfList(Get(params, NewRatingKey, Null), Null));
    if n != Null && n != Str("") then n else OldRating(ConfirmedRating(contexts))
  }

  /** An absent or empty new comment keeps the old one (main.py:301-308). */
  function MergedComment(params: map<string, Value>, contexts: seq<Context>): Value {
    var n := FirstIfList(Get(params, NewCommentKey, Null), Null);
    if Truthy(n) then n else ConfirmedComment(contexts, Null)
  }

  /** `submit_review_edit` (main.py:252-342). */
  function Edit(params: map<string, Value>, contexts: seq<Context>, session: string, names: seq<string>): (r: Reply)
    ensures |r.outputContexts| == 1
    ensures r.outcome == EditApplied <==>
      Truthy(ConfirmedProduct(contexts)) && MergedRating(params, contexts) != Null
    ensures r.outcome == EditApplied ==>
      r.outputContexts[0] == Emit(session, ConfirmStage, map[
        ProductKey := ConfirmedProduct(contexts),
        RatingKey := MergedRating(params, contexts),
        CommentKey := MergedComment(params, contexts),
        UnreviewedKey := ConfirmedUnreviewed(contexts)])
    ensures r.outcome != EditApplied ==>
      r.outcome == EditIncomplete && ActiveOffer(r, session, names, None)
  {
    var product := ConfirmedProduct(contexts);
    var rating := MergedRating(params, contexts);
    if !Truthy(product) || rating == Null then
      Reply(EditIncomplete, [Emit(session, ActiveStage, map[UnreviewedKey := NameList(names)])])
    else
      Reply(EditApplied, [Emit(session, ConfirmStage, map[
        ProductKey := product, RatingKey := rating,
        CommentKey := MergedComment(params, contexts),
        UnreviewedKey := ConfirmedUnreviewed(contexts)])])
  }

  // ---------------------------------------------------------------------
  // Submission

  /** Python's `s in t` for strings. */
  predicate IsSubstring(s: string, t: string)
    decreases |t|
  {
    s <= t || (t != [] && IsSubstring(s, t[1..]))
  }

  /** `product in unreviewed_products` for the carried value (main.py:408);
      None stands for the TypeError a number or None raises. */
  function Contains(container: Value, s: string): (r: Option<bool>)
    ensures container.List? ==> r == Some(Str(s) in container.items)
    ensures container.Null? || container.Int? || container.Float? ==> r.None?
  {
    match container
    case List(items) => Some(Str(s) in items)
    case Str(t) => Some(IsSubstring(s, t))
    case Dict(entries) => Some(exists e <- entries :: e.key == s)
    case _ => None
  }

  /** `[p for p in xs if p != x]`. */
  function RemoveAll<T(==,!new)>(xs: seq<T>, x: T): (r: seq<T>)
    ensures x !in r
    ensures forall y :: y != x ==> multiset(r)[y] == multiset(xs)[y]
    ensures |r| == |xs| - multiset(xs)[x]
  {
    if xs == [] then []
    else
      assert xs == [xs[0]] + xs[1..];
      if xs[0] == x then RemoveAll(xs[1..], x) else [xs[0]] + RemoveAll(xs[1..], x)
  }

  /** Removal keeps the order of what remains: it distributes over concatenation. */
  lemma {:induction false} RemoveAllConcat<T(!new)>(a: seq<T>, b: seq<T>, x: T)
    ensures RemoveAll(a + b, x) == RemoveAll(a, x) + RemoveAll(b, x)
  {
    if a == [] {
      assert a + b == b;
    } else {
      assert (a + b)[0] == a[0];
      assert (a + b)[1..] == a[1..] + b;
      RemoveAllConcat(a[1..], b, x);
    }
  }

  /** The list comprehension over the carried value: a list keeps its other
      members, a string is iterated by characters, a dict by keys. */
  function Without(container: Value, s: string): (r: Value)
    ensures container.List? ==> r == List(RemoveAll(container.items, Str(s)))
  {
    match container
    case List(items) => List(RemoveAll(items, Str(s)))
    case Str(t) => List(RemoveAll(seq(|t|, k requires 0 <= k < |t| => Str([t[k]])), Str(s)))
    case Dict(entries) => List(RemoveAll(seq(|entries|, k requires 0 <= k < |entries| => Str(entries[k].key)), Str(s)))
    case _ => container
  }

  /** The carried unreviewed list, re-read from the database when falsy (main.py:368-371). */
  function Carried(contexts: seq<Context>, names: seq<string>): (r: Value)
    ensures Truthy(r) || names == []
    ensures Truthy(ConfirmedUnreviewed(contexts)) ==> r == ConfirmedUnreviewed(contexts)
    ensures !Truthy(ConfirmedUnreviewed(contexts)) ==> r == NameList(names)
  {
    var given := ConfirmedUnreviewed(contexts);
    if Truthy(given) then given else NameList(names)
  }

  /** `submit_review_submit` (main.py:344-442). `insertOk` says whether
      `insert_review` returns normally. */
  function Submit(contexts: seq<Context>, session: string, names: seq<string>, insertOk: bool): (r: Submission)
    ensures |r.insertCalls| <= 1
    ensures var p := ConfirmedProduct(contexts);
      var rating := ConfirmedRating(contexts);
      && (r.insertCalls != [] <==> Truthy(p) && Truthy(rating) && InNames(p, names))
      && (r.insertCalls != [] ==>
            r.insertCalls == [Review(p, CustomerId, rating, ConfirmedComment(contexts, Str("")))])
    ensures r.insertCalls == [] ==>
      r.reply == Reply(if Truthy(ConfirmedProduct(contexts)) && Truthy(ConfirmedRating(contexts))
                       then SubmitIneligible else SubmitIncomplete,
                       [Emit(session, ActiveStage, map[UnreviewedKey := Carried(contexts, names)])])
    ensures r.reply.outcome == Submitted ==>
      && insertOk && r.insertCalls != []
      && var carried := Carried(contexts, names);
         var s := ConfirmedProduct(contexts).s;
         r.reply.outputContexts == [Emit(session, FinalizeStage, map[UnreviewedKey :=
           if Contains(carried, s) == Some(true) then Without(carried, s) else carried])]
    ensures r.reply.outcome == SubmitFailed ==>
      && r.insertCalls != []
      && r.reply.outputContexts == [Emit(session, ConfirmStage, map[
           ProductKey := ConfirmedProduct(contexts),
           RatingKey := ConfirmedRating(contexts),
           CommentKey := ConfirmedComment(contexts, Str("")),
           UnreviewedKey := Carried(contexts, names)])]
    ensures r.insertCalls != [] && !insertOk ==> r.reply.outcome == SubmitFailed
    ensures r.insertCalls != [] ==>
      && (r.reply.outcome == Submitted <==>
            insertOk && Contains(Carried(contexts, names), ConfirmedProduct(contexts).s).Some?)
      && (r.reply.outcome != Submitted ==> r.reply.outcome == SubmitFailed)
  {
    var product := ConfirmedProduct(contexts);
    var rating := ConfirmedRating(contexts);
    var comment := ConfirmedComment(contexts, Str(""));
    var carried := Carried(contexts, names);
    var back := [Emit(session, ActiveStage, map[UnreviewedKey := carried])];
    if !Truthy(product) || !Truthy(rating) then Submission(Reply(SubmitIncomplete, back), [])
    else if !InNames(product, names) then Submission(Reply(SubmitIneligible, back), [])
    else
      var call := Review(product, CustomerId, rating, comment);
      var retry := Reply(SubmitFailed, [Emit(session, ConfirmStage, map[
        ProductKey := product, RatingKey := rating, CommentKey := comment, UnreviewedKey := carried])]);
      if !insertOk then Submission(retry, [call])
      else match Contains(carried, product.s)
        case None => Submission(retry, [call])
        case Some(found) =>
          var left := if found then Without(carried, product.s) else carried;
          Submission(Reply(Submitted, [Emit(session, FinalizeStage, map[UnreviewedKey := left])]), [call])
  }

  /** `submit_review_end` (main.py:498-505): the review dialogue closes. */
  function End(): (r: Reply)
    ensures r.outputContexts == [] && r.outcome == Ended
  {
    Reply(Ended, [])
  }

  /** `submit_review_cancel` (main.py:507-514): no context survives. */
  function Cancel(): (r: Reply)
    ensures r.outputContexts == [] && r.outcome == Cancelled
  {
    Reply(Cancelled, [])
  }

  /** `submit_review_select_different_product` (main.py:516-557): no context
      fallback and no empty-list check. */
  function SelectDifferentProduct(params: map<string, Value>, session: string,
                                  names: seq<string>, catalog: set<string>): (r: Reply)
    ensures var p := ParamProduct(params);
      && (r.outcome == ProductAccepted <==> DetailsFound(p, catalog) && InNames(p, names))
      && r.outcome in {ProductAccepted, ProductRejected}
      && ActiveOffer(r, session, names, if r.outcome == ProductAccepted then Some(p) else None)
    ensures ProductGate(r, names)
  {
    var product := ParamProduct(params);
    var list := map[UnreviewedKey := NameList(names)];
    if !DetailsFound(product, catalog) || !InNames(product, names) then
      Reply(ProductRejected, [Emit(session, ActiveStage, list)])
    else Reply(ProductAccepted, [Emit(session, ActiveStage, list[ProductKey := product])])
  }
}
