/** Directory structure: files are leaves, directories hold an ordered list of
    children. As in the source, a directory holds REFERENCES to its children:
    every node lives in a heap keyed by id, a directory lists child ids, and
    `indexOf` compares ids. A change made to a child after it was added is
    therefore seen through every directory that holds it. `display` is only
    defined on heaps that a rank map shows to be acyclic (a directory added
    below itself makes the source's `display` recurse without end). */
module DirectoryTree {
  import Seqs

  type Id = nat

  datatype Node =
    | File(name: string)
    | Directory(name: string, children: seq<Id>)

  /** Every live node, by id. */
  type Heap = map<Id, Node>

  /** The ids a node refers to. */
  function Kids(n: Node): seq<Id>
  {
    if n.Directory? then n.children else []
  }

  predicate IsDirectory(h: Heap, d: Id)
  {
    d in h && h[d].Directory?
  }

  /** Every reference points to a live node of strictly smaller rank, so the
      heap holds no cycle and `display` terminates. */
  predicate Ranked(h: Heap, rank: map<Id, nat>)
  {
    && (forall p | p in h :: p in rank)
    && (forall p, i | p in h && 0 <= i < |Kids(h[p])| ::
          Kids(h[p])[i] in h && rank[Kids(h[p])[i]] < rank[p])
  }

  function NewDirectory(name: string): (n: Node)
    ensures n.Directory? && n.children == [] && n.name == name
  {
    Directory(name, [])
  }

  /** `Directory.add`: push the child's id at the end; no other node changes. */
  function Add(h: Heap, d: Id, child: Id): (r: Heap)
    requires IsDirectory(h, d)
    ensures IsDirectory(r, d) && r[d].name == h[d].name
    ensures r[d].children == h[d].children + [child]
    ensures r.Keys == h.Keys
    ensures forall o | o in h && o != d :: r[o] == h[o]
  {
    h[d := h[d].(children := h[d].children + [child])]
  }

  /** `Directory.remove`: splice out the first occurrence of the reference;
      absent is a no-op; no other node changes. */
  function Remove(h: Heap, d: Id, child: Id): (r: Heap)
    requires IsDirectory(h, d)
    ensures IsDirectory(r, d) && r[d].name == h[d].name
    ensures child !in h[d].children ==> r == h
    ensures child in h[d].children ==> |r[d].children| == |h[d].children| - 1
    ensures child in h[d].children ==>
      exists i :: (0 <= i < |h[d].children| && h[d].children[i] == child && child !in h[d].children[..i] &&
                   r[d].children == h[d].children[..i] + h[d].children[i + 1..])
    ensures r.Keys == h.Keys
    ensures forall o | o in h && o != d :: r[o] == h[o]
  {
    if child in h[d].children then h[d := h[d].(children := Seqs.RemoveFirst(h[d].children, child))] else h
  }

  /** As a multiset, the directory's list loses exactly one copy of the removed
      reference, or nothing when it was absent. */
  lemma RemoveDropsOneCopy(h: Heap, d: Id, child: Id)
    requires IsDirectory(h, d)
    ensures multiset(Remove(h, d, child)[d].children) == multiset(h[d].children) - multiset{child}
  {
    if child in h[d].children {
      assert Remove(h, d, child)[d].children == Seqs.RemoveFirst(h[d].children, child);
    } else {
      assert multiset(h[d].children)[child] == 0;
    }
  }

  /** The line a node prints for itself. */
  function Line(n: Node): (line: string)
    ensures n.File? <==> line == "File: " + n.name
    ensures n.Directory? <==> line == "Directory: " + n.name
  {
    match n
    case File(name) => "File: " + name
    case Directory(name, _) => "Directory: " + name
  }

  /** `display`: pre-order, the node's own line then each child's output in
      child order, reading the children as they are now. */
  function Display(h: Heap, rank: map<Id, nat>, n: Id): (lines: seq<string>)
    requires Ranked(h, rank) && n in h
    ensures |lines| >= 1 && lines[0] == Line(h[n])
    decreases rank[n], 1, 0
  {
    match h[n]
    case File(_) => [Line(h[n])]
    case Directory(_, children) =>
      assert Kids(h[n]) == children;
      [Line(h[n])] + DisplayAll(h, rank, children, rank[n])
  }

  /** Each node's output in list order; `bound` is above every listed rank. */
  function DisplayAll(h: Heap, rank: map<Id, nat>, ns: seq<Id>, bound: nat): (lines: seq<string>)
    requires Ranked(h, rank)
    requires forall i | 0 <= i < |ns| :: ns[i] in h && ns[i] in rank && rank[ns[i]] < bound
    ensures |ns| == 0 <==> lines == []
    decreases bound, 0, |ns|
  {
    if |ns| == 0 then [] else Display(h, rank, ns[0]) + DisplayAll(h, rank, ns[1..], bound)
  }

  /** Number of nodes reachable from `n`, counted once per path (reference
      definition for `display`'s length). */
  function Size(h: Heap, rank: map<Id, nat>, n: Id): nat
    requires Ranked(h, rank) && n in h
    decreases rank[n], 1, 0
  {
    match h[n]
    case File(_) => 1
    case Directory(_, children) =>
      assert Kids(h[n]) == children;
      1 + SizeAll(h, rank, children, rank[n])
  }

  function SizeAll(h: Heap, rank: map<Id, nat>, ns: seq<Id>, bound: nat): nat
    requires Ranked(h, rank)
    requires forall i | 0 <= i < |ns| :: ns[i] in h && ns[i] in rank && rank[ns[i]] < bound
    decreases bound, 0, |ns|
  {
    if |ns| == 0 then 0 else Size(h, rank, ns[0]) + SizeAll(h, rank, ns[1..], bound)
  }

  /** `display` prints exactly one line per node reached. */
  lemma {:induction false} DisplayLength(h: Heap, rank: map<Id, nat>, n: Id)
    requires Ranked(h, rank) && n in h
    ensures |Display(h, rank, n)| == Size(h, rank, n)
    decreases rank[n], 1, 0
  {
    match h[n]
    case File(_) =>
    case Directory(_, children) =>
      assert Kids(h[n]) == children;
      DisplayAllLength(h, rank, children, rank[n]);
  }

  lemma {:induction false} DisplayAllLength(h: Heap, rank: map<Id, nat>, ns: seq<Id>, bound: nat)
    requires Ranked(h, rank)
    requires forall i | 0 <= i < |ns| :: ns[i] in h && ns[i] in rank && rank[ns[i]] < bound
    ensures |DisplayAll(h, rank, ns, bound)| == SizeAll(h, rank, ns, bound)
    decreases bound, 0, |ns|
  {
    if |ns| > 0 {
      DisplayLength(h, rank, ns[0]);
      DisplayAllLength(h, rank, ns[1..], bound);
    }
  }

  /** The children's output follows child order: a pushed child prints last. */
  lemma {:induction false} DisplayAllPush(h: Heap, rank: map<Id, nat>, ns: seq<Id>, c: Id, bound: nat)
    requires Ranked(h, rank)
    requires forall i | 0 <= i < |ns| :: ns[i] in h && ns[i] in rank && rank[ns[i]] < bound
    requires c in h && c in rank && rank[c] < bound
    ensures DisplayAll(h, rank, ns + [c], bound) == DisplayAll(h, rank, ns, bound) + Display(h, rank, c)
    decreases |ns|
  {
    if |ns| == 0 {
      assert ns + [c] == [c];
      assert [c][1..] == [];
    } else {
      Seqs.SnocTail(ns, c);
      DisplayAllPush(h, rank, ns[1..], c, bound);
      Seqs.ConcatAssoc(Display(h, rank, ns[0]), DisplayAll(h, rank, ns[1..], bound), Display(h, rank, c));
    }
  }

  /** A node's output depends only on the nodes of lower rank: changing any
      other node leaves it as it was. */
  lemma {:induction false} DisplayFrame(h: Heap, h2: Heap, rank: map<Id, nat>, b: nat, n: Id)
    requires Ranked(h, rank) && Ranked(h2, rank)
    requires forall p | p in h && p in rank && rank[p] < b :: p in h2 && h2[p] == h[p]
    requires n in h && rank[n] < b
    ensures n in h2 && Display(h2, rank, n) == Display(h, rank, n)
    decreases rank[n], 1, 0
  {
    match h[n]
    case File(_) =>
    case Directory(_, children) =>
      assert Kids(h[n]) == children;
      DisplayAllFrame(h, h2, rank, b, children, rank[n]);
  }

  lemma {:induction false} DisplayAllFrame(h: Heap, h2: Heap, rank: map<Id, nat>, b: nat, ns: seq<Id>, bound: nat)
    requires Ranked(h, rank) && Ranked(h2, rank)
    requires forall p | p in h && p in rank && rank[p] < b :: p in h2 && h2[p] == h[p]
    requires bound <= b
    requires forall i | 0 <= i < |ns| :: ns[i] in h && ns[i] in rank && rank[ns[i]] < bound
    ensures forall i | 0 <= i < |ns| :: ns[i] in h2
    ensures DisplayAll(h2, rank, ns, bound) == DisplayAll(h, rank, ns, bound)
    decreases bound, 0, |ns|
  {
    if |ns| > 0 {
      DisplayFrame(h, h2, rank, b, ns[0]);
      DisplayAllFrame(h, h2, rank, b, ns[1..], bound);
    }
  }

  /** Adding a node of lower rank keeps the heap acyclic. */
  lemma AddKeepsRanked(h: Heap, rank: map<Id, nat>, d: Id, c: Id)
    requires Ranked(h, rank) && IsDirectory(h, d)
    requires c in h && c in rank && rank[c] < rank[d]
    ensures Ranked(Add(h, d, c), rank)
  {
    var h2 := Add(h, d, c);
    assert Kids(h2[d]) == Kids(h[d]) + [c];
    forall p, i | p in h2 && 0 <= i < |Kids(h2[p])|
      ensures Kids(h2[p])[i] in h2 && Kids(h2[p])[i] in rank && rank[Kids(h2[p])[i]] < rank[p]
    {
      if p != d {
        assert h2[p] == h[p];
      }
    }
  }

  /** Adding below `d` leaves the output of everything of lower rank as it was. */
  lemma AddKeepsLower(h: Heap, rank: map<Id, nat>, d: Id, c: Id)
    requires Ranked(h, rank) && IsDirectory(h, d)
    requires c in h && c in rank && rank[c] < rank[d]
    ensures Ranked(Add(h, d, c), rank)
    ensures forall i | 0 <= i < |h[d].children| :: h[d].children[i] in h && h[d].children[i] in rank && rank[h[d].children[i]] < rank[d]
    ensures DisplayAll(Add(h, d, c), rank, h[d].children, rank[d]) == DisplayAll(h, rank, h[d].children, rank[d])
    ensures Display(Add(h, d, c), rank, c) == Display(h, rank, c)
  {
    AddKeepsRanked(h, rank, d, c);
    var h2 := Add(h, d, c);
    var cs := h[d].children;
    assert Kids(h[d]) == cs;
    DisplayAllFrame(h, h2, rank, rank[d], cs, rank[d]);
    DisplayFrame(h, h2, rank, rank[d], c);
  }

  /** Adding a lower-ranked node keeps the heap acyclic, and the directory's
      display becomes its old display followed by the new child's display. */
  lemma AddDisplaysLast(h: Heap, rank: map<Id, nat>, d: Id, c: Id)
    requires Ranked(h, rank) && IsDirectory(h, d)
    requires c in h && c in rank && rank[c] < rank[d]
    ensures Ranked(Add(h, d, c), rank)
    ensures Display(Add(h, d, c), rank, d) == Display(h, rank, d) + Display(h, rank, c)
  {
    AddKeepsLower(h, rank, d, c);
    var h2 := Add(h, d, c);
    var cs := h[d].children;
    assert h2[d].children == cs + [c];
    DisplayAllPush(h2, rank, cs, c, rank[d]);
    assert Display(h2, rank, d) == [Line(h[d])] + (DisplayAll(h, rank, cs, rank[d]) + Display(h, rank, c));
    Seqs.ConcatAssoc([Line(h[d])], DisplayAll(h, rank, cs, rank[d]), Display(h, rank, c));
  }


  /** The client heap: root, dir1, dir2, file1.txt and file2.txt as ids 0..4,
      linked in the client's own order (dir2 goes into dir1 after dir1 went
      into root). */
  function ClientHeap(): Heap
  {
    var h := map[0 := NewDirectory("root"), 1 := NewDirectory("dir1"), 2 := NewDirectory("dir2"),
                 3 := File("file1.txt"), 4 := File("file2.txt")];
    Add(Add(Add(Add(h, 0, 1), 0, 3), 0, 4), 1, 2)
  }

  function ClientRank(): map<Id, nat>
  {
    map[0 := 2, 1 := 1, 2 := 0, 3 := 0, 4 := 0]
  }

  /** The literal heap the client's five calls build. */
  function ClientLinked(): Heap
  {
    map[0 := Directory("root", [1, 3, 4]), 1 := Directory("dir1", [2]), 2 := Directory("dir2", []),
        3 := File("file1.txt"), 4 := File("file2.txt")]
  }

  lemma ClientHeapLinked()
    ensures ClientHeap() == ClientLinked()
  {
    var c := ClientHeap();
    var h := ClientLinked();
    assert c.Keys == h.Keys;
    assert c[0] == h[0] && c[1] == h[1] && c[2] == h[2] && c[3] == h[3] && c[4] == h[4];
  }

  lemma ClientLinkedRanked()
    ensures Ranked(ClientLinked(), ClientRank())
  {
    var h := ClientLinked();
    assert h.Keys == {0, 1, 2, 3, 4};
  }

  lemma ClientDir1()
    ensures Ranked(ClientLinked(), ClientRank())
    ensures Display(ClientLinked(), ClientRank(), 1) == ["Directory: dir1", "Directory: dir2"]
  {
    ClientLinkedRanked();
    var h := ClientLinked();
    var rank := ClientRank();
    assert Line(h[1]) == "Directory: dir1";
    assert Line(h[2]) == "Directory: dir2";
    assert Display(h, rank, 2) == [Line(h[2])] + DisplayAll(h, rank, [], 0);
    assert DisplayAll(h, rank, [2], 1) == Display(h, rank, 2) + DisplayAll(h, rank, [2][1..], 1);
    assert [2][1..] == [];
  }

  lemma ClientFiles()
    ensures Ranked(ClientLinked(), ClientRank())
    ensures DisplayAll(ClientLinked(), ClientRank(), [3, 4], 2) == ["File: file1.txt", "File: file2.txt"]
  {
    ClientLinkedRanked();
    var h := ClientLinked();
    var rank := ClientRank();
    assert Line(h[3]) == "File: file1.txt";
    assert Line(h[4]) == "File: file2.txt";
    assert DisplayAll(h, rank, [4], 2) == Display(h, rank, 4) + DisplayAll(h, rank, [4][1..], 2);
    assert [4][1..] == [];
    assert [3, 4][1..] == [4];
  }

  lemma ClientRootKids()
    ensures Ranked(ClientLinked(), ClientRank())
    ensures DisplayAll(ClientLinked(), ClientRank(), [1, 3, 4], 2) ==
      ["Directory: dir1", "Directory: dir2", "File: file1.txt", "File: file2.txt"]
  {
    ClientDir1();
    ClientFiles();
    var h := ClientLinked();
    var rank := ClientRank();
    assert [1, 3, 4][1..] == [3, 4];
    assert DisplayAll(h, rank, [1, 3, 4], 2) == Display(h, rank, 1) + DisplayAll(h, rank, [3, 4], 2);
  }

  lemma ClientLinkedDisplay()
    ensures Ranked(ClientLinked(), ClientRank())
    ensures Display(ClientLinked(), ClientRank(), 0) ==
      ["Directory: root", "Directory: dir1", "Directory: dir2", "File: file1.txt", "File: file2.txt"]
  {
    ClientRootKids();
    var h := ClientLinked();
    var rank := ClientRank();
    assert h[0] == Directory("root", [1, 3, 4]) && rank[0] == 2;
    assert Line(h[0]) == "Directory: root";
    assert Display(h, rank, 0) == [Line(h[0])] + DisplayAll(h, rank, [1, 3, 4], 2);
  }

  /** dir2 is added to dir1 after dir1 is in root, and root's display still
      shows it: pre-order root, dir1, dir2, file1.txt, file2.txt. */
  lemma ClientRun()
    ensures Ranked(ClientHeap(), ClientRank())
    ensures Display(ClientHeap(), ClientRank(), 0) ==
      ["Directory: root", "Directory: dir1", "Directory: dir2", "File: file1.txt", "File: file2.txt"]
  {
    ClientHeapLinked();
    ClientLinkedDisplay();
  }

  /** Removal finds a child by reference even after the child itself has
      changed: adding to `dir` first does not change what `remove(dir)` takes
      out of `parent`, the list still loses one entry, and `dir` keeps its
      new child. */
  lemma RemoveFindsChangedChild(h: Heap, parent: Id, dir: Id, x: Id)
    requires IsDirectory(h, parent) && IsDirectory(h, dir) && parent != dir
    requires dir in h[parent].children
    ensures Remove(Add(h, dir, x), parent, dir)[parent] == Remove(h, parent, dir)[parent]
    ensures |Remove(Add(h, dir, x), parent, dir)[parent].children| == |h[parent].children| - 1
    ensures Remove(Add(h, dir, x), parent, dir)[dir].children == h[dir].children + [x]
  {
    var h1 := Add(h, dir, x);
    assert h1[parent] == h[parent];
  }
}

/** Graphic objects: lines and circles are leaves, a picture draws its header
    and then each graphic in order. As with directories, a picture holds
    references: graphics live in a heap keyed by id and a picture lists ids. */
module PictureTree {
  import Seqs

  type Id = nat

  datatype Graphic =
    | Line
    | Circle
    | Picture(graphics: seq<Id>)

  /** Every live graphic, by id. */
  type Heap = map<Id, Graphic>

  function Kids(g: Graphic): seq<Id>
  {
    if g.Picture? then g.graphics else []
  }

  predicate IsPicture(h: Heap, p: Id)
  {
    p in h && h[p].Picture?
  }

  /** Every reference points to a live graphic of strictly smaller rank. */
  predicate Ranked(h: Heap, rank: map<Id, nat>)
  {
    && (forall p | p in h :: p in rank)
    && (forall p, i | p in h && 0 <= i < |Kids(h[p])| ::
          Kids(h[p])[i] in h && rank[Kids(h[p])[i]] < rank[p])
  }

  function NewPicture(): (g: Graphic)
    ensures g.Picture? && g.graphics == []
  {
    Picture([])
  }

  /** `Picture.add`: push the reference at the end; no other graphic changes. */
  function Add(h: Heap, p: Id, g: Id): (r: Heap)
    requires IsPicture(h, p)
    ensures IsPicture(r, p) && r[p].graphics == h[p].graphics + [g]
    ensures r.Keys == h.Keys
    ensures forall o | o in h && o != p :: r[o] == h[o]
  {
    h[p := Picture(h[p].graphics + [g])]
  }

  /** `Picture.remove`: splice out the first occurrence of the reference;
      absent is a no-op; no other graphic changes. */
  function Remove(h: Heap, p: Id, g: Id): (r: Heap)
    requires IsPicture(h, p)
    ensures IsPicture(r, p)
    ensures g !in h[p].graphics ==> r == h
    ensures g in h[p].graphics ==> |r[p].graphics| == |h[p].graphics| - 1
    ensures g in h[p].graphics ==>
      exists i :: (0 <= i < |h[p].graphics| && h[p].graphics[i] == g && g !in h[p].graphics[..i] &&
                   r[p].graphics == h[p].graphics[..i] + h[p].graphics[i + 1..])
    ensures r.Keys == h.Keys
    ensures forall o | o in h && o != p :: r[o] == h[o]
  {
    if g in h[p].graphics then h[p := Picture(Seqs.RemoveFirst(h[p].graphics, g))] else h
  }

  /** As a multiset, the picture's list loses exactly one copy of the removed
      reference, or nothing when it was absent. */
  lemma RemoveDropsOneCopy(h: Heap, p: Id, g: Id)
    requires IsPicture(h, p)
    ensures multiset(Remove(h, p, g)[p].graphics) == multiset(h[p].graphics) - multiset{g}
  {
    if g in h[p].graphics {
      assert Remove(h, p, g)[p].graphics == Seqs.RemoveFirst(h[p].graphics, g);
    } else {
      assert multiset(h[p].graphics)[g] == 0;
    }
  }

  /** The line a graphic prints before its contents. */
  function Header(g: Graphic): (line: string)
    ensures line == "Drawing Line" <==> g.Line?
    ensures line == "Drawing Circle" <==> g.Circle?
    ensures line == "Drawing Picture:" <==> g.Picture?
  {
    match g
    case Line => "Drawing Line"
    case Circle => "Drawing Circle"
    case Picture(_) => "Drawing Picture:"
  }

  /** `draw`: the graphic's own line, then, for a picture, each graphic's
      output in order. */
  function Draw(h: Heap, rank: map<Id, nat>, g: Id): (lines: seq<string>)
    requires Ranked(h, rank) && g in h
    ensures |lines| >= 1 && lines[0] == Header(h[g])
    ensures !h[g].Picture? ==> |lines| == 1
    decreases rank[g], 1, 0
  {
    match h[g]
    case Picture(gs) =>
      assert Kids(h[g]) == gs;
      [Header(h[g])] + DrawAll(h, rank, gs, rank[g])
    case _ => [Header(h[g])]
  }

  /** Each graphic's output in list order; `bound` is above every listed rank. */
  function DrawAll(h: Heap, rank: map<Id, nat>, gs: seq<Id>, bound: nat): (lines: seq<string>)
    requires Ranked(h, rank)
    requires forall i | 0 <= i < |gs| :: gs[i] in h && gs[i] in rank && rank[gs[i]] < bound
    ensures |gs| == 0 <==> lines == []
    decreases bound, 0, |gs|
  {
    if |gs| == 0 then [] else Draw(h, rank, gs[0]) + DrawAll(h, rank, gs[1..], bound)
  }

  /** Number of graphics reached from `g`, counted once per path. */
  function Count(h: Heap, rank: map<Id, nat>, g: Id): nat
    requires Ranked(h, rank) && g in h
    decreases rank[g], 1, 0
  {
    match h[g]
    case Picture(gs) =>
      assert Kids(h[g]) == gs;
      1 + CountAll(h, rank, gs, rank[g])
    case _ => 1
  }

  function CountAll(h: Heap, rank: map<Id, nat>, gs: seq<Id>, bound: nat): nat
    requires Ranked(h, rank)
    requires forall i | 0 <= i < |gs| :: gs[i] in h && gs[i] in rank && rank[gs[i]] < bound
    decreases bound, 0, |gs|
  {
    if |gs| == 0 then 0 else Count(h, rank, gs[0]) + CountAll(h, rank, gs[1..], bound)
  }

  /** `draw` prints one line per graphic reached. */
  lemma {:induction false} DrawLength(h: Heap, rank: map<Id, nat>, g: Id)
    requires Ranked(h, rank) && g in h
    ensures |Draw(h, rank, g)| == Count(h, rank, g)
    decreases rank[g], 1, 0
  {
    match h[g]
    case Picture(gs) =>
      assert Kids(h[g]) == gs;
      DrawAllLength(h, rank, gs, rank[g]);
    case _ =>
  }

  lemma {:induction false} DrawAllLength(h: Heap, rank: map<Id, nat>, gs: seq<Id>, bound: nat)
    requires Ranked(h, rank)
    requires forall i | 0 <= i < |gs| :: gs[i] in h && gs[i] in rank && rank[gs[i]] < bound
    ensures |DrawAll(h, rank, gs, bound)| == CountAll(h, rank, gs, bound)
    decreases bound, 0, |gs|
  {
    if |gs| > 0 {
      DrawLength(h, rank, gs[0]);
      DrawAllLength(h, rank, gs[1..], bound);
    }
  }

  /** A picture's contents print in list order: a pushed graphic prints last. */
  lemma {:induction false} DrawAllPush(h: Heap, rank: map<Id, nat>, gs: seq<Id>, c: Id, bound: nat)
    requires Ranked(h, rank)
    requires forall i | 0 <= i < |gs| :: gs[i] in h && gs[i] in rank && rank[gs[i]] < bound
    requires c in h && c in rank && rank[c] < bound
    ensures DrawAll(h, rank, gs + [c], bound) == DrawAll(h, rank, gs, bound) + Draw(h, rank, c)
    decreases |gs|
  {
    if |gs| == 0 {
      assert gs + [c] == [c];
      assert [c][1..] == [];
    } else {
      Seqs.SnocTail(gs, c);
      DrawAllPush(h, rank, gs[1..], c, bound);
      Seqs.ConcatAssoc(Draw(h, rank, gs[0]), DrawAll(h, rank, gs[1..], bound), Draw(h, rank, c));
    }
  }

  /** A graphic's output depends only on the graphics of lower rank. */
  lemma {:induction false} DrawFrame(h: Heap, h2: Heap, rank: map<Id, nat>, b: nat, g: Id)
    requires Ranked(h, rank) && Ranked(h2, rank)
    requires forall p | p in h && p in rank && rank[p] < b :: p in h2 && h2[p] == h[p]
    requires g in h && rank[g] < b
    ensures g in h2 && Draw(h2, rank, g) == Draw(h, rank, g)
    decreases rank[g], 1, 0
  {
    match h[g]
    case Picture(gs) =>
      assert Kids(h[g]) == gs;
      DrawAllFrame(h, h2, rank, b, gs, rank[g]);
    case _ =>
  }

  lemma {:induction false} DrawAllFrame(h: Heap, h2: Heap, rank: map<Id, nat>, b: nat, gs: seq<Id>, bound: nat)
    requires Ranked(h, rank) && Ranked(h2, rank)
    requires forall p | p in h && p in rank && rank[p] < b :: p in h2 && h2[p] == h[p]
    requires bound <= b
    requires forall i | 0 <= i < |gs| :: gs[i] in h && gs[i] in rank && rank[gs[i]] < bound
    ensures forall i | 0 <= i < |gs| :: gs[i] in h2
    ensures DrawAll(h2, rank, gs, bound) == DrawAll(h, rank, gs, bound)
    decreases bound, 0, |gs|
  {
    if |gs| > 0 {
      DrawFrame(h, h2, rank, b, gs[0]);
      DrawAllFrame(h, h2, rank, b, gs[1..], bound);
    }
  }

  /** Adding a graphic of lower rank keeps the heap acyclic. */
  lemma AddKeepsRanked(h: Heap, rank: map<Id, nat>, p: Id, g: Id)
    requires Ranked(h, rank) && IsPicture(h, p)
    requires g in h && g in rank && rank[g] < rank[p]
    ensures Ranked(Add(h, p, g), rank)
  {
    var h2 := Add(h, p, g);
    assert Kids(h2[p]) == Kids(h[p]) + [g];
    forall q, i | q in h2 && 0 <= i < |Kids(h2[q])|
      ensures Kids(h2[q])[i] in h2 && Kids(h2[q])[i] in rank && rank[Kids(h2[q])[i]] < rank[q]
    {
      if q != p {
        assert h2[q] == h[q];
      }
    }
  }

  /** Adding below `p` leaves the output of everything of lower rank as it was. */
  lemma AddKeepsLower(h: Heap, rank: map<Id, nat>, p: Id, g: Id)
    requires Ranked(h, rank) && IsPicture(h, p)
    requires g in h && g in rank && rank[g] < rank[p]
    ensures Ranked(Add(h, p, g), rank)
    ensures forall i | 0 <= i < |h[p].graphics| :: h[p].graphics[i] in h && h[p].graphics[i] in rank && rank[h[p].graphics[i]] < rank[p]
    ensures DrawAll(Add(h, p, g), rank, h[p].graphics, rank[p]) == DrawAll(h, rank, h[p].graphics, rank[p])
    ensures Draw(Add(h, p, g), rank, g) == Draw(h, rank, g)
  {
    AddKeepsRanked(h, rank, p, g);
    var h2 := Add(h, p, g);
    var cs := h[p].graphics;
    assert Kids(h[p]) == cs;
    DrawAllFrame(h, h2, rank, rank[p], cs, rank[p]);
    DrawFrame(h, h2, rank, rank[p], g);
  }

  /** After `add`, the picture draws its old output followed by the new
      graphic's output. */
  lemma AddDrawsLast(h: Heap, rank: map<Id, nat>, p: Id, g: Id)
    requires Ranked(h, rank) && IsPicture(h, p)
    requires g in h && g in rank && rank[g] < rank[p]
    ensures Ranked(Add(h, p, g), rank)
    ensures Draw(Add(h, p, g), rank, p) == Draw(h, rank, p) + Draw(h, rank, g)
  {
    AddKeepsLower(h, rank, p, g);
    var h2 := Add(h, p, g);
    var cs := h[p].graphics;
    assert h2[p].graphics == cs + [g];
    DrawAllPush(h2, rank, cs, g, rank[p]);
    assert Draw(h2, rank, p) == [Header(h[p])] + (DrawAll(h, rank, cs, rank[p]) + Draw(h, rank, g));
    Seqs.ConcatAssoc([Header(h[p])], DrawAll(h, rank, cs, rank[p]), Draw(h, rank, g));
  }


  /** The client run: line (id 0), circle (id 1) and picture (id 2); the
      picture draws its header, then the line, then the circle. */
  lemma ClientRun()
    ensures Ranked(Add(Add(map[0 := Line, 1 := Circle, 2 := NewPicture()], 2, 0), 2, 1), map[0 := 0, 1 := 0, 2 := 1])
    ensures Draw(Add(Add(map[0 := Line, 1 := Circle, 2 := NewPicture()], 2, 0), 2, 1), map[0 := 0, 1 := 0, 2 := 1], 2) ==
      ["Drawing Picture:", "Drawing Line", "Drawing Circle"]
  {
    var h0: Heap := map[0 := Line, 1 := Circle, 2 := NewPicture()];
    var rank := map[0 := 0, 1 := 0, 2 := 1];
    assert h0.Keys == {0, 1, 2};
    assert Ranked(h0, rank);
    AddDrawsLast(h0, rank, 2, 0);
    var h1 := Add(h0, 2, 0);
    AddDrawsLast(h1, rank, 2, 1);
    assert Draw(h0, rank, 2) == ["Drawing Picture:"] + DrawAll(h0, rank, [], 1);
    assert Draw(h1, rank, 1) == ["Drawing Circle"];
  }
}
