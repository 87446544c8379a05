/** The categories contract: every account owns a list of categories, each carrying a
    1-based sequential id that is the list's length just before the category was pushed. */
module CategoriesContract {
  import opened Panics
  import opened LazyStore

  /** One category record. */
  datatype Category = Category(id: nat, title: string, color: string)

  /** The title and color a caller passes to `add_category`. */
  datatype Draft = Draft(title: string, color: string)

  /** The contract state: each account's categories. */
  datatype Categories = Categories(values: Store<Category>)

  /** Message of the guard in `new`. */
  const AlreadyInitialized := "Already initialized"

  /** `Default::default` refuses to build a state: the contract must be initialized by `new`. */
  function Default(): (r: Result<Categories>)
    ensures r.Panic? && r.message == NotInitialized
  {
    Panic(NotInitialized)
  }

  /** `new`: an empty store, unless contract state is already persisted. */
  function New(stateExists: bool): (r: Result<Categories>)
    ensures r.Ok? <==> !stateExists
    ensures r.Ok? ==> r.value.values == map[]
    ensures r.Ok? ==> forall account :: GetCategories(r.value, account) == []
    ensures r.Panic? ==> r.message == AlreadyInitialized
  {
    if stateExists then Panic(AlreadyInitialized) else Ok(Categories(map[]))
  }

  /** `get_categories`: the account's categories in insertion order, or none for an account
      that never added one. It reads the state and changes nothing. */
  function GetCategories(c: Categories, accountId: Owner): (r: seq<Category>)
    ensures accountId !in c.values ==> r == []
    ensures accountId in c.values ==> r == c.values[accountId]
  {
    List(c.values, accountId)
  }

  /** `reset`: the signer's categories are dropped; every other account keeps its own. */
  function Reset(c: Categories, signer: Owner): (r: Categories)
    ensures signer !in r.values && GetCategories(r, signer) == []
    ensures OnlyOwnerChanged(c.values, r.values, signer)
    ensures signer !in c.values ==> r == c
  {
    Categories(Remove(c.values, signer))
  }

  /** The category `add_category` pushes onto the collection `v`. */
  function NextCategory(v: seq<Category>, d: Draft): Category {
    Category(|v| + 1, d.title, d.color)
  }

  /** `add_category` as ensure-then-append: the signer's list grows by one category at its
      end, numbered one past the old length, and nothing else changes. */
  function AddCategory(c: Categories, signer: Owner, d: Draft): (r: Categories)
    ensures signer in r.values
    ensures GetCategories(r, signer) ==
      GetCategories(c, signer) + [Category(|GetCategories(c, signer)| + 1, d.title, d.color)]
    ensures OnlyOwnerChanged(c.values, r.values, signer)
  {
    Categories(Append(c.values, signer, NextCategory(GetCategories(c, signer), d)))
  }

  /** `add_category` as the source writes it: on a missing entry, store an empty collection
      and call itself again. The second call finds the entry, so there is exactly one retry,
      and the outcome is the ensure-then-append one. */
  method AddCategoryRetrying(c: Categories, signer: Owner, d: Draft) returns (r: Categories, retries: nat)
    ensures r == AddCategory(c, signer, d)
    ensures retries == if signer in c.values then 0 else 1
    decreases if signer in c.values then 0 else 1
  {
    if signer in c.values {
      var v := c.values[signer];
      v := v + [Category(|v| + 1, d.title, d.color)];
      r := Categories(c.values[signer := v]);
      retries := 0;
    } else {
      var baseVector: seq<Category> := [];
      var created := Categories(c.values[signer := baseVector]);
      var inner;
      r, inner := AddCategoryRetrying(created, signer, d);
      retries := inner + 1;
    }
  }

  /** The first category of an account without one is the only one, numbered 1. */
  lemma FirstCategoryIsOne(c: Categories, signer: Owner, d: Draft)
    requires signer !in c.values
    ensures GetCategories(AddCategory(c, signer, d), signer) == [Category(1, d.title, d.color)]
  {
  }

  /** After a reset the signer starts over: the next category is numbered 1. */
  lemma ResetRestartsNumbering(c: Categories, signer: Owner, d: Draft)
    ensures GetCategories(AddCategory(Reset(c, signer), signer, d), signer) == [Category(1, d.title, d.color)]
  {
    FirstCategoryIsOne(Reset(c, signer), signer, d);
  }

  /** Categories are numbered 1, 2, ..., n in list order. */
  ghost predicate SequentialIds(v: seq<Category>) {
    forall i :: 0 <= i < |v| ==> v[i].id == i + 1
  }

  /** `add_category` keeps a sequentially numbered list sequentially numbered. */
  lemma AddPreservesSequentialIds(c: Categories, signer: Owner, d: Draft)
    requires SequentialIds(GetCategories(c, signer))
    ensures SequentialIds(GetCategories(AddCategory(c, signer, d), signer))
  {
  }

  /** A run of `add_category` calls by one signer, in order. */
  function AddAll(c: Categories, signer: Owner, drafts: seq<Draft>): Categories
    decreases |drafts|
  {
    if drafts == [] then c
    else AddCategory(AddAll(c, signer, drafts[..|drafts| - 1]), signer, drafts[|drafts| - 1])
  }

  /** The categories a run of additions pushes onto a list of length `start`. */
  function Numbered(start: nat, drafts: seq<Draft>): seq<Category>
    decreases |drafts|
  {
    if drafts == [] then []
    else
      var init := drafts[..|drafts| - 1];
      Numbered(start, init) + [Category(start + |init| + 1, drafts[|drafts| - 1].title, drafts[|drafts| - 1].color)]
  }

  /** The k-th pushed category carries the k-th draft and is numbered `start + k + 1`. */
  lemma {:induction false} NumberedContents(start: nat, drafts: seq<Draft>)
    ensures |Numbered(start, drafts)| == |drafts|
    ensures forall k :: 0 <= k < |drafts| ==>
      Numbered(start, drafts)[k] == Category(start + k + 1, drafts[k].title, drafts[k].color)
    decreases |drafts|
  {
    if drafts != [] {
      var init := drafts[..|drafts| - 1];
      NumberedContents(start, init);
      assert forall k :: 0 <= k < |init| ==> init[k] == drafts[k];
    }
  }

  /** After a run of additions the signer's list is the old list followed by the pushed
      categories, in call order. */
  lemma {:induction false} AddAllAppends(c: Categories, signer: Owner, drafts: seq<Draft>)
    ensures GetCategories(AddAll(c, signer, drafts), signer) ==
      GetCategories(c, signer) + Numbered(|GetCategories(c, signer)|, drafts)
    decreases |drafts|
  {
    if drafts != [] {
      var init := drafts[..|drafts| - 1];
      AddAllAppends(c, signer, init);
      NumberedContents(|GetCategories(c, signer)|, init);
    }
  }

  /** A run of additions by one signer leaves every other account's list as it was. */
  lemma {:induction false} AddAllOnlySigner(c: Categories, signer: Owner, drafts: seq<Draft>)
    ensures OnlyOwnerChanged(c.values, AddAll(c, signer, drafts).values, signer)
    decreases |drafts|
  {
    if drafts != [] {
      AddAllOnlySigner(c, signer, drafts[..|drafts| - 1]);
    }
  }

  /** Pushed onto an empty list, the categories are numbered 1, 2, ..., n, so their ids are
      pairwise distinct. */
  lemma NumberedOnEmpty(drafts: seq<Draft>)
    ensures SequentialIds(Numbered(0, drafts))
    ensures var v := Numbered(0, drafts); forall i, j :: 0 <= i < j < |v| ==> v[i].id != v[j].id
  {
    NumberedContents(0, drafts);
  }

  /** A list built only by `add_category`, starting from no entry or from a reset, is
      numbered 1, 2, ..., n with the drafts in call order, so no two share an id. */
  lemma FreshListNumbered(c: Categories, signer: Owner, drafts: seq<Draft>)
    requires signer !in c.values
    ensures var after := GetCategories(AddAll(c, signer, drafts), signer);
      && |after| == |drafts|
      && SequentialIds(after)
      && (forall k :: 0 <= k < |drafts| ==> after[k].title == drafts[k].title && after[k].color == drafts[k].color)
      && forall i, j :: 0 <= i < j < |after| ==> after[i].id != after[j].id
  {
    var after := GetCategories(AddAll(c, signer, drafts), signer);
    AddAllAppends(c, signer, drafts);
    assert after == Numbered(0, drafts);
    NumberedContents(0, drafts);
    NumberedOnEmpty(drafts);
  }
}
