/** The model/view/controller shape both examples share: the model is an
    append-only list, the view records each list it is asked to render, and
    the controller adds to the model and then re-renders. */
module ListMvc {

  /** The model's list and the lists the view has rendered so far. */
  datatype App<T> = App(items: seq<T>, rendered: seq<seq<T>>)

  function New<T>(): (a: App<T>)
    ensures a.items == [] && a.rendered == []
  {
    App([], [])
  }

  /** The model's `add`: push at the end. */
  function ModelAdd<T>(a: App<T>, x: T): (r: App<T>)
    ensures r.items == a.items + [x] && r.rendered == a.rendered
  {
    a.(items := a.items + [x])
  }

  /** The model's getter. */
  function ModelGet<T>(a: App<T>): (xs: seq<T>)
    ensures xs == a.items
  {
    a.items
  }

  /** The controller's `updateView`: render the current list; the model is
      unchanged. */
  function UpdateView<T>(a: App<T>): (r: App<T>)
    ensures r.items == a.items && r.rendered == a.rendered + [a.items]
  {
    a.(rendered := a.rendered + [ModelGet(a)])
  }

  /** The controller's add: add to the model, then `updateView`. */
  function ControllerAdd<T>(a: App<T>, x: T): (r: App<T>)
    ensures r.items == a.items + [x]
    ensures r.rendered == a.rendered + [a.items + [x]]
  {
    UpdateView(ModelAdd(a, x))
  }

  function AddAll<T>(a: App<T>, xs: seq<T>): App<T>
  {
    if |xs| == 0 then a else ControllerAdd(AddAll(a, xs[..|xs| - 1]), xs[|xs| - 1])
  }

  /** Adding through the controller keeps insertion order, renders once per
      add, and the last render shows the whole list with the newest last. */
  lemma {:induction false} AddAllInOrder<T>(xs: seq<T>)
    ensures AddAll(New(), xs).items == xs
    ensures |AddAll(New(), xs).rendered| == |xs|
    ensures forall i :: 0 <= i < |xs| ==> AddAll(New(), xs).rendered[i] == xs[..i + 1]
  {
    if |xs| > 0 {
      var init := xs[..|xs| - 1];
      var last := xs[|xs| - 1];
      AddAllInOrder(init);
      assert init + [last] == xs;
      var p := AddAll(New(), init);
      var r := AddAll(New(), xs);
      assert r == ControllerAdd(p, last);
      assert r.rendered == p.rendered + [init + [last]];
      forall i | 0 <= i < |xs|
        ensures r.rendered[i] == xs[..i + 1]
      {
        if i < |init| {
          assert r.rendered[i] == p.rendered[i];
          assert xs[..i + 1] == init[..i + 1];
        } else {
          assert xs[..i + 1] == xs;
        }
      }
    }
  }
}

/** To-do list MVC. */
module TodoMvc {
  import ListMvc

  /** The client run: two todos, each add re-renders the full list. */
  lemma ClientRun()
    ensures var a := ListMvc.ControllerAdd(ListMvc.ControllerAdd(ListMvc.New(), "Buy groceries"), "Finish project");
            ListMvc.ModelGet(a) == ["Buy groceries", "Finish project"] &&
            a.rendered == [["Buy groceries"], ["Buy groceries", "Finish project"]]
  {
    var a1 := ListMvc.ControllerAdd(ListMvc.New(), "Buy groceries");
    assert [] + ["Buy groceries"] == ["Buy groceries"];
    assert a1.rendered == [["Buy groceries"]];
    var a2 := ListMvc.ControllerAdd(a1, "Finish project");
    assert a1.items == ["Buy groceries"];
    assert a1.items + ["Finish project"] == ["Buy groceries", "Finish project"];
    assert a2.rendered == [["Buy groceries"]] + [["Buy groceries", "Finish project"]];
  }
}

/** Online store MVC: products are name/price records. */
module ProductMvc {
  import ListMvc

  datatype Product = Product(name: string, price: int)

  /** The client run: two products, then one more explicit `updateView`. */
  lemma ClientRun()
    ensures var a := ListMvc.UpdateView(ListMvc.ControllerAdd(ListMvc.ControllerAdd(
              ListMvc.New(), Product("Smartphone", 500)), Product("Laptop", 1000)));
            a.items == [Product("Smartphone", 500), Product("Laptop", 1000)] &&
            |a.rendered| == 3 && a.rendered[1] == a.rendered[2] == a.items
  {
  }
}
