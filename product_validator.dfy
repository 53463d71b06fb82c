/** The express-validator rule chains for creating and updating a product, as a function
    from the request's fields to the list of failed rules. A chain without `bail()` runs
    every validator, so one field can fail several rules; failures are listed in chain
    order. */
module ProductValidator {
  import opened Wrappers
  import opened Js

  const MinTitleLength := 3
  const MaxTitleLength := 200
  const MaxDescriptionLength := 2000
  const MaxImages := 5

  /** A body field as the validators see it. `Missing` is `undefined` (which `optional()`
      skips); a non-string value carries the text express-validator's string conversion
      gives it, which is what `trim`, `notEmpty` and `isLength` work on. */
  datatype FieldValue = Missing | Text(s: string) | NonText(asText: string)

  /** The string form validators and sanitizers apply to (`undefined` reads as ""). */
  function AsText(v: FieldValue): string
  {
    match v
    case Missing => ""
    case Text(s) => s
    case NonText(t) => t
  }

  /** The request fields the rules read; `fileCount` is `req.files.length`, `None` when
      `req.files` is unset. */
  datatype ProductFields = ProductFields(title: FieldValue, description: FieldValue, price: FieldValue,
                                         seller: FieldValue, images: FieldValue, fileCount: Option<nat>)

  /** The rules of both chains. */
  datatype Rule = TitleRequired | TitleLength | DescriptionLength | PriceRequired | SellerNotString | TooManyImages

  /** The body field a rule reports. */
  function FieldOf(rule: Rule): string
  {
    match rule
    case TitleRequired => "title"
    case TitleLength => "title"
    case DescriptionLength => "description"
    case PriceRequired => "price"
    case SellerNotString => "seller"
    case TooManyImages => "images"
  }

  /** The message a failed rule reports (its `withMessage`, or the thrown error's message). */
  function Message(rule: Rule): string
  {
    match rule
    case TitleRequired => "Title is required"
    case TitleLength => "Title must be between 3 and 200 characters"
    case DescriptionLength => "Description must not exceed 2000 characters"
    case PriceRequired => "Price is required"
    case SellerNotString => "Seller must be a string"
    case TooManyImages => "Maximum 5 images allowed"
  }

  /** A rule's position in the create chain. */
  function Rank(rule: Rule): nat
  {
    match rule
    case TitleRequired => 0
    case TitleLength => 1
    case DescriptionLength => 2
    case PriceRequired => 3
    case SellerNotString => 4
    case TooManyImages => 5
  }

  /** The rules listed in chain order, each at most once. */
  predicate InChainOrder(r: seq<Rule>)
  {
    forall i, j :: 0 <= i < j < |r| ==> Rank(r[i]) < Rank(r[j])
  }

  /** `isLength({ min, max })`, counting characters (the presentation selectors U+FE0E
      and U+FE0F, which validator.js leaves out of the count, are counted here). */
  predicate LengthWithin(s: string, min: nat, max: nat)
  {
    min <= |s| <= max
  }

  /** The validators of `createProductValidation`, in chain order. */
  const CreateChain: seq<Rule> := [TitleRequired, TitleLength, DescriptionLength, PriceRequired, SellerNotString, TooManyImages]

  /** The validators of `updateProductValidation`, in chain order. */
  const UpdateChain: seq<Rule> := [TitleLength, DescriptionLength]

  /** Whether one validator of the create chains fails. `title` and `description` are
      the fields as the `trim()` sanitizer leaves them; `optional()` skips a missing
      description, seller or images field; the price is checked untrimmed. */
  predicate CreateRuleFails(f: ProductFields, title: string, description: string, rule: Rule)
  {
    match rule
    case TitleRequired => title == ""
    case TitleLength => !LengthWithin(title, MinTitleLength, MaxTitleLength)
    case DescriptionLength => !f.description.Missing? && !LengthWithin(description, 0, MaxDescriptionLength)
    case PriceRequired => AsText(f.price) == ""
    case SellerNotString => f.seller.NonText?
    case TooManyImages => !f.images.Missing? && f.fileCount.Some? && f.fileCount.value > MaxImages
  }

  /** Whether one validator of the update chains fails: both fields are optional there. */
  predicate UpdateRuleFails(f: ProductFields, title: string, description: string, rule: Rule)
  {
    match rule
    case TitleLength => !f.title.Missing? && !LengthWithin(title, MinTitleLength, MaxTitleLength)
    case DescriptionLength => !f.description.Missing? && !LengthWithin(description, 0, MaxDescriptionLength)
    case _ => false
  }

  /** The validators of `chain` that fail, in chain order: the error list that
      `validationResult` collects when no chain bails out early. */
  function FailedRules(chain: seq<Rule>, fails: Rule -> bool): (r: seq<Rule>)
    ensures |r| <= |chain|
    ensures forall x :: x in r <==> x in chain && fails(x)
  {
    if chain == [] then []
    else (if fails(chain[0]) then [chain[0]] else []) + FailedRules(chain[1..], fails)
  }

  /** Every rule listed has a rank at least `lo`. */
  predicate RanksFrom(r: seq<Rule>, lo: nat)
  {
    forall k :: 0 <= k < |r| ==> lo <= Rank(r[k])
  }

  /** Filtering lists only rules of the chain, so it keeps the chain's lower bound. */
  lemma FailedRulesRanksFrom(chain: seq<Rule>, fails: Rule -> bool, lo: nat)
    requires RanksFrom(chain, lo)
    ensures RanksFrom(FailedRules(chain, fails), lo)
  {
    var r := FailedRules(chain, fails);
    forall k | 0 <= k < |r| ensures lo <= Rank(r[k]) {
      assert r[k] in r;
    }
  }

  /** The tail of an ordered chain is ordered and ranks above its head. */
  lemma OrderedTail(chain: seq<Rule>)
    requires chain != [] && InChainOrder(chain)
    ensures InChainOrder(chain[1..]) && RanksFrom(chain[1..], Rank(chain[0]) + 1)
  {
    var rest := chain[1..];
    forall i, j | 0 <= i < j < |rest| ensures Rank(rest[i]) < Rank(rest[j]) {
      assert rest[i] == chain[i + 1] && rest[j] == chain[j + 1];
    }
    forall k | 0 <= k < |rest| ensures Rank(chain[0]) + 1 <= Rank(rest[k]) {
      assert rest[k] == chain[k + 1];
    }
  }

  /** Filtering keeps the chain's order. */
  lemma {:induction false} FailedRulesInOrder(chain: seq<Rule>, fails: Rule -> bool)
    requires InChainOrder(chain)
    ensures InChainOrder(FailedRules(chain, fails))
    decreases |chain|
  {
    if chain != [] {
      var rest := chain[1..];
      OrderedTail(chain);
      FailedRulesInOrder(rest, fails);
      FailedRulesRanksFrom(rest, fails, Rank(chain[0]) + 1);
      var tail := FailedRules(rest, fails);
      var head: seq<Rule> := if fails(chain[0]) then [chain[0]] else [];
      var r := head + tail;
      forall i, j | 0 <= i < j < |r| ensures Rank(r[i]) < Rank(r[j]) {
        if head != [] && i == 0 {
          assert r[j] == tail[j - 1];
        } else {
          assert r[i] == tail[i - |head|] && r[j] == tail[j - |head|];
        }
      }
    }
  }

  /** Every rule is a validator of the create chain. */
  lemma CreateChainHasEveryRule()
    ensures forall rule :: rule in CreateChain
  {
    forall rule ensures rule in CreateChain {
      assert CreateChain[Rank(rule)] == rule;
    }
  }

  /** The create validators that fail, for already trimmed title and description. */
  function CreateFailuresOf(f: ProductFields, title: string, description: string): (r: seq<Rule>)
    ensures forall rule :: rule in r <==> CreateRuleFails(f, title, description, rule)
  {
    CreateChainHasEveryRule();
    FailedRules(CreateChain, rule => CreateRuleFails(f, title, description, rule))
  }

  /** The update validators that fail, for already trimmed title and description. */
  function UpdateFailuresOf(f: ProductFields, title: string, description: string): (r: seq<Rule>)
    ensures forall rule :: rule in r <==> UpdateRuleFails(f, title, description, rule)
  {
    assert UpdateChain[0] == TitleLength && UpdateChain[1] == DescriptionLength;
    FailedRules(UpdateChain, rule => UpdateRuleFails(f, title, description, rule))
  }

  /** What each create validator checks. */
  lemma CreateRuleMeaning(f: ProductFields, title: string, description: string)
    ensures CreateRuleFails(f, title, description, TitleRequired) <==> title == ""
    ensures CreateRuleFails(f, title, description, TitleLength) <==> !LengthWithin(title, MinTitleLength, MaxTitleLength)
    ensures CreateRuleFails(f, title, description, DescriptionLength) <==>
      !f.description.Missing? && |description| > MaxDescriptionLength
    ensures CreateRuleFails(f, title, description, PriceRequired) <==> AsText(f.price) == ""
    ensures CreateRuleFails(f, title, description, SellerNotString) <==> f.seller.NonText?
    ensures CreateRuleFails(f, title, description, TooManyImages) <==>
      !f.images.Missing? && f.fileCount.Some? && f.fileCount.value > MaxImages
  {
  }

  /** What each update validator checks; the other rules never fail there. */
  lemma UpdateRuleMeaning(f: ProductFields, title: string, description: string)
    ensures UpdateRuleFails(f, title, description, TitleLength) <==>
      !f.title.Missing? && !LengthWithin(title, MinTitleLength, MaxTitleLength)
    ensures UpdateRuleFails(f, title, description, DescriptionLength) <==>
      !f.description.Missing? && |description| > MaxDescriptionLength
    ensures forall rule :: UpdateRuleFails(f, title, description, rule) ==> rule == TitleLength || rule == DescriptionLength
  {
  }

  /** `createProductValidation`: the failed validators, in chain order, each at most
      once. */
  function CreateFailures(f: ProductFields): (r: seq<Rule>)
    ensures TitleRequired in r <==> Trim(AsText(f.title)) == ""
    ensures TitleLength in r <==> !LengthWithin(Trim(AsText(f.title)), MinTitleLength, MaxTitleLength)
    ensures DescriptionLength in r <==>
      !f.description.Missing? && |Trim(AsText(f.description))| > MaxDescriptionLength
    ensures PriceRequired in r <==> AsText(f.price) == ""
    ensures SellerNotString in r <==> f.seller.NonText?
    ensures TooManyImages in r <==>
      !f.images.Missing? && f.fileCount.Some? && f.fileCount.value > MaxImages
  {
    CreateRuleMeaning(f, Trim(AsText(f.title)), Trim(AsText(f.description)));
    CreateFailuresOf(f, Trim(AsText(f.title)), Trim(AsText(f.description)))
  }

  /** `updateProductValidation`: only an optional title and an optional description. */
  function UpdateFailures(f: ProductFields): (r: seq<Rule>)
    ensures TitleLength in r <==>
      !f.title.Missing? && !LengthWithin(Trim(AsText(f.title)), MinTitleLength, MaxTitleLength)
    ensures DescriptionLength in r <==>
      !f.description.Missing? && |Trim(AsText(f.description))| > MaxDescriptionLength
    ensures forall x :: x in r ==> x == TitleLength || x == DescriptionLength
  {
    UpdateRuleMeaning(f, Trim(AsText(f.title)), Trim(AsText(f.description)));
    UpdateFailuresOf(f, Trim(AsText(f.title)), Trim(AsText(f.description)))
  }

  /** The create chain lists its validators in rank order. */
  lemma CreateChainInOrder()
    ensures InChainOrder(CreateChain)
  {
    forall i, j | 0 <= i < j < |CreateChain| ensures Rank(CreateChain[i]) < Rank(CreateChain[j]) {
      assert Rank(CreateChain[i]) == i && Rank(CreateChain[j]) == j;
    }
  }

  /** The create rules are reported in chain order, each at most once. */
  lemma CreateFailuresInChainOrder(f: ProductFields)
    ensures InChainOrder(CreateFailures(f))
  {
    var title := Trim(AsText(f.title));
    var description := Trim(AsText(f.description));
    CreateChainInOrder();
    FailedRulesInOrder(CreateChain, rule => CreateRuleFails(f, title, description, rule));
  }

  /** The update rules are reported in chain order, each at most once. */
  lemma UpdateFailuresInChainOrder(f: ProductFields)
    ensures InChainOrder(UpdateFailures(f))
  {
    var title := Trim(AsText(f.title));
    var description := Trim(AsText(f.description));
    FailedRulesInOrder(UpdateChain, rule => UpdateRuleFails(f, title, description, rule));
  }

  /** A create request passes exactly when every rule holds. */
  lemma CreatePassesExactly(f: ProductFields)
    ensures CreateFailures(f) == [] <==>
      && LengthWithin(Trim(AsText(f.title)), MinTitleLength, MaxTitleLength)
      && (f.description.Missing? || |Trim(AsText(f.description))| <= MaxDescriptionLength)
      && AsText(f.price) != ""
      && !f.seller.NonText?
      && (f.images.Missing? || f.fileCount.None? || f.fileCount.value <= MaxImages)
  {
    var r := CreateFailures(f);
    if r != [] {
      assert r[0] in r;
    }
  }

  /** Update reads nothing but the title and the description. */
  lemma UpdateReadsTitleAndDescription(f: ProductFields, g: ProductFields)
    requires f.title == g.title && f.description == g.description
    ensures UpdateFailures(f) == UpdateFailures(g)
  {
  }

  /** A create request that passes also passes the update rules. */
  lemma CreatePassImpliesUpdatePass(f: ProductFields)
    requires CreateFailures(f) == []
    ensures UpdateFailures(f) == []
  {
    CreatePassesExactly(f);
  }
}
