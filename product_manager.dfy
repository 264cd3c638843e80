/** The product-data side of the plugin (includes/ProductManager.php): the "Licenses" tab
    added to WooCommerce's product-data tabs, and the license flags saved with a product. */
module ProductManager {
  import opened Php

  const TabName := "license_manager_tab"
  const TabTarget := "license_manager_product_data"

  /** One entry of WooCommerce's product-data tab array. */
  datatype Tab = Tab(labelText: string, target: string, classes: seq<string>, priority: int)

  /** inventoryManagementTab: sets the plugin's tab and leaves every other tab as it was. */
  function InventoryManagementTab(tabs: map<string, Tab>): (r: map<string, Tab>)
    ensures r.Keys == tabs.Keys + {TabName}
    ensures r[TabName].target == TabTarget && r[TabName].classes == ["show_if_simple"]
    ensures r[TabName].priority == 21 && r[TabName].labelText == "Licenses"
    ensures forall k :: k in tabs && k != TabName ==> r[k] == tabs[k]
  {
    tabs[TabName := Tab("Licenses", TabTarget, ["show_if_simple"], 21)]
  }

  /** Adding the tab a second time changes nothing. */
  lemma InventoryManagementTabIdempotent(tabs: map<string, Tab>)
    ensures InventoryManagementTab(InventoryManagementTab(tabs)) == InventoryManagementTab(tabs)
  {
  }

  // Post-meta keys and the error transient
  const LicensedKey := "_lima_licensed_product"
  const UseStockKey := "_lima_licensed_product_use_stock"
  const UseGeneratorKey := "_lima_licensed_product_use_generator"
  const AssignedGeneratorKey := "_lima_licensed_product_assigned_generator"
  const ErrorTransient := "_lima_error"

  const MetaKeys: set<string> := {LicensedKey, UseStockKey, UseGeneratorKey, AssignedGeneratorKey}

  datatype WpError = WpError(code: int, message: string)

  const AssignGeneratorError :=
    WpError(2, "Assign a generator if you wish to sell automatically generated licenses for this product.")

  /** `array_key_exists('post_type', $_POST) && $_POST['post_type'] == 'product'`. */
  predicate IsProductPost(post: map<string, Value>)
  {
    "post_type" in post && post["post_type"] == Str("product")
  }

  /** The generator checkbox is ticked but no generator is selected. */
  predicate GeneratorMissing(post: map<string, Value>)
  {
    UseGeneratorKey in post && !Truthy(Lookup(post, AssignedGeneratorKey))
  }

  /** The four meta values savePost writes for a product post. */
  function ProductFlags(rt: Runtime, post: map<string, Value>): (w: map<string, int>)
    ensures w.Keys == MetaKeys
    ensures w[LicensedKey] in {0, 1} && w[UseStockKey] in {0, 1} && w[UseGeneratorKey] in {0, 1}
    ensures w[LicensedKey] == 1 <==> LicensedKey in post
    ensures w[UseStockKey] == 1 <==> UseStockKey in post
    ensures w[UseGeneratorKey] == 1 <==> UseGeneratorKey in post && Truthy(Lookup(post, AssignedGeneratorKey))
    ensures w[AssignedGeneratorKey] == IntVal(rt, Lookup(post, AssignedGeneratorKey))
  {
    map[
      LicensedKey := if LicensedKey in post then 1 else 0,
      UseStockKey := if UseStockKey in post then 1 else 0,
      UseGeneratorKey := if UseGeneratorKey in post && Truthy(Lookup(post, AssignedGeneratorKey)) then 1 else 0,
      AssignedGeneratorKey := IntVal(rt, Lookup(post, AssignedGeneratorKey))]
  }

  /** The post's meta after savePost, stated on values. */
  function SavedMeta(rt: Runtime, post: map<string, Value>, meta: map<string, int>): (m: map<string, int>)
    ensures !IsProductPost(post) ==> m == meta
    ensures IsProductPost(post) ==> m.Keys == meta.Keys + MetaKeys
    ensures forall k :: k in meta && k !in MetaKeys ==> k in m && m[k] == meta[k]
  {
    if IsProductPost(post) then meta + ProductFlags(rt, post) else meta
  }

  /** Saving the same form twice leaves the meta as saving it once. */
  lemma SavePostIdempotent(rt: Runtime, post: map<string, Value>, meta: map<string, int>)
    ensures SavedMeta(rt, post, SavedMeta(rt, post, meta)) == SavedMeta(rt, post, meta)
  {
  }

  /** Whatever else a product form holds, a ticked generator box with no generator selected
      never leaves the use-generator flag set. */
  lemma NoGeneratorMeansNoGeneratedLicenses(rt: Runtime, post: map<string, Value>, meta: map<string, int>)
    requires IsProductPost(post) && !Truthy(Lookup(post, AssignedGeneratorKey))
    ensures SavedMeta(rt, post, meta)[UseGeneratorKey] == 0
    ensures SavedMeta(rt, post, meta)[AssignedGeneratorKey] == IntVal(rt, Lookup(post, AssignedGeneratorKey))
  {
  }

  /** The WordPress state savePost writes to: integer post meta per post, and transients. */
  class WpStore {
    var postMeta: map<int, map<string, int>>
    var transients: map<string, WpError>

    constructor ()
      ensures postMeta == map[] && transients == map[]
    {
      postMeta := map[];
      transients := map[];
    }

    function Meta(postId: int): map<string, int>
      reads this
    {
      if postId in postMeta then postMeta[postId] else map[]
    }

    /** update_post_meta: sets one key of one post. */
    method UpdatePostMeta(postId: int, key: string, value: int)
      modifies this
      ensures postMeta == old(postMeta)[postId := old(Meta(postId))[key := value]]
      ensures transients == old(transients)
    {
      postMeta := postMeta[postId := Meta(postId)[key := value]];
    }

    /** set_transient (its expiry is not modelled). */
    method SetTransient(key: string, value: WpError)
      modifies this
      ensures transients == old(transients)[key := value]
      ensures postMeta == old(postMeta)
    {
      transients := transients[key := value];
    }
  }

  lemma UpdateTwice(m: map<int, map<string, int>>, k: int, x: map<string, int>, y: map<string, int>)
    ensures m[k := x][k := y] == m[k := y]
  {
  }

  /** Setting the four keys of `w` one by one gives `m + w`. */
  lemma OverrideByKeys(m: map<string, int>, w: map<string, int>, a: string, b: string, c: string, d: string)
    requires w.Keys == {a, b, c, d}
    ensures m[a := w[a]][b := w[b]][c := w[c]][d := w[d]] == m + w
  {
  }

  /** One "update the flag according to its checkbox" step of savePost: 1 when the box was posted, else 0. */
  method SaveCheckbox(store: WpStore, postId: int, post: map<string, Value>, key: string)
    modifies store
    ensures store.postMeta == old(store.postMeta)[postId := old(store.Meta(postId))[key := if key in post then 1 else 0]]
    ensures store.transients == old(store.transients)
  {
    if key in post {
      store.UpdatePostMeta(postId, key, 1);
    } else {
      store.UpdatePostMeta(postId, key, 0);
    }
  }

  /** The use-generator step of savePost: the flag is 1 only when a generator is also
      selected; a ticked box without one writes 0 and sets the error transient. */
  method SaveUseGenerator(store: WpStore, postId: int, post: map<string, Value>)
    modifies store
    ensures store.postMeta == old(store.postMeta)[postId := old(store.Meta(postId))[UseGeneratorKey :=
      if UseGeneratorKey in post && Truthy(Lookup(post, AssignedGeneratorKey)) then 1 else 0]]
    ensures store.transients ==
      if GeneratorMissing(post) then old(store.transients)[ErrorTransient := AssignGeneratorError]
      else old(store.transients)
  {
    if UseGeneratorKey in post {
      if !Truthy(Lookup(post, AssignedGeneratorKey)) {
        store.SetTransient(ErrorTransient, AssignGeneratorError);
        store.UpdatePostMeta(postId, UseGeneratorKey, 0);
      } else {
        store.UpdatePostMeta(postId, UseGeneratorKey, 1);
      }
    } else {
      store.UpdatePostMeta(postId, UseGeneratorKey, 0);
    }
  }

  /** savePost: for a product post, writes the three 0/1 flags and the assigned generator
      id, and records an error transient when generation is asked for without a generator. */
  method SavePost(store: WpStore, rt: Runtime, postId: int, post: map<string, Value>)
    modifies store
    ensures !IsProductPost(post) ==> store.postMeta == old(store.postMeta)
    ensures IsProductPost(post) ==>
      store.postMeta == old(store.postMeta)[postId := SavedMeta(rt, post, old(store.Meta(postId)))]
    ensures store.transients ==
      if IsProductPost(post) && GeneratorMissing(post)
      then old(store.transients)[ErrorTransient := AssignGeneratorError]
      else old(store.transients)
  {
    if !("post_type" in post) || post["post_type"] != Str("product") {
      return;
    }
    ghost var before := store.Meta(postId);
    ghost var w := ProductFlags(rt, post);

    SaveCheckbox(store, postId, post, LicensedKey);
    ghost var one := before[LicensedKey := w[LicensedKey]];
    assert store.Meta(postId) == one;

    SaveCheckbox(store, postId, post, UseStockKey);
    ghost var two := one[UseStockKey := w[UseStockKey]];
    UpdateTwice(old(store.postMeta), postId, one, two);
    assert store.Meta(postId) == two;

    SaveUseGenerator(store, postId, post);
    ghost var three := two[UseGeneratorKey := w[UseGeneratorKey]];
    UpdateTwice(old(store.postMeta), postId, two, three);
    assert store.Meta(postId) == three;

    store.UpdatePostMeta(postId, AssignedGeneratorKey, IntVal(rt, Lookup(post, AssignedGeneratorKey)));
    UpdateTwice(old(store.postMeta), postId, three, three[AssignedGeneratorKey := w[AssignedGeneratorKey]]);
    OverrideByKeys(before, w, LicensedKey, UseStockKey, UseGeneratorKey, AssignedGeneratorKey);
  }
}
