/**
  The shape of a B-tree as a flat map from node references to what each node holds, and the
  structural steps that insertion and removal are made of. Every invariant is local to a node and
  its children; nothing here is recursive over the tree.
 */
module BTreeModel {

  /** A pointer to a node or to a handle. */
  datatype Ref = Null | At(addr: int)

  /** What a tree node holds. `level` is its height above the leaves and `rng` a set of values its
      subtree is confined to; both exist only in the model. */
  datatype View = View(keys: seq<int>, hs: seq<Ref>, kids: seq<Ref>, parent: Ref, level: nat, rng: set<int>)

  datatype Tree = Tree(nodes: map<Ref, View>, hpar: map<Ref, Ref>, root: Ref, contents: map<int, Ref>)

  ghost predicate Sorted(s: seq<int>) {
    forall i, j :: 0 <= i < j < |s| ==> s[i] < s[j]
  }

  /** Kid number `k` of `id` is a node one level down that points back to `id`, and its values lie
      strictly between the neighbouring keys of `id`. */
  ghost predicate KidOK(t: Tree, id: Ref, k: nat)
    requires id in t.nodes && k < |t.nodes[id].kids| && |t.nodes[id].kids| == |t.nodes[id].keys| + 1
  {
    var v := t.nodes[id];
    var c := v.kids[k];
    && c in t.nodes && t.nodes[c].parent == id && t.nodes[c].level + 1 == v.level
    && forall x :: x in t.nodes[c].rng ==>
         x in v.rng && (k > 0 ==> v.keys[k-1] < x) && (k < |v.keys| ==> x < v.keys[k])
  }

  ghost predicate KeyOK(t: Tree, id: Ref, k: nat)
    requires id in t.nodes && k < |t.nodes[id].keys| == |t.nodes[id].hs|
  {
    var v := t.nodes[id];
    && v.keys[k] in v.rng
    && v.hs[k] != Null && v.hs[k] in t.hpar && t.hpar[v.hs[k]] == id
    && v.keys[k] in t.contents && t.contents[v.keys[k]] == v.hs[k]
  }

  ghost predicate NodeOK(t: Tree, id: Ref)
    requires id in t.nodes
  {
    var v := t.nodes[id];
    && |v.hs| == |v.keys| && |v.kids| == |v.keys| + 1
    && Sorted(v.keys)
    && (forall k {:trigger KeyOK(t, id, k)} :: 0 <= k < |v.keys| ==> KeyOK(t, id, k))
    && (v.level == 0 ==> forall k :: 0 <= k < |v.kids| ==> v.kids[k] == Null)
    && (v.level > 0 ==> forall k {:trigger KidOK(t, id, k)} :: 0 <= k < |v.kids| ==> KidOK(t, id, k))
    && (v.level > 0 ==> forall i, j :: 0 <= i < j < |v.kids| ==> v.kids[i] != v.kids[j])
  }

  /** A node other than the root is one of the kids of its parent. */
  ghost predicate UpOK(t: Tree, id: Ref)
    requires id in t.nodes
  {
    var p := t.nodes[id].parent;
    if id == t.root then p == Null else p in t.nodes && t.nodes[p].level > 0 && id in t.nodes[p].kids
  }

  ghost predicate Stored(t: Tree, p: int)
    requires p in t.contents
  {
    var h := t.contents[p];
    && h in t.hpar && t.hpar[h] in t.nodes
    && exists k :: 0 <= k < |t.nodes[t.hpar[h]].keys| == |t.nodes[t.hpar[h]].hs|
                   && t.nodes[t.hpar[h]].keys[k] == p && t.nodes[t.hpar[h]].hs[k] == h
  }

  ghost predicate Injective(m: map<int, Ref>) {
    forall p, q :: p in m && q in m && m[p] == m[q] ==> p == q
  }

  ghost predicate AllNodes(t: Tree) {
    forall id {:trigger NodeOK(t, id)} :: id in t.nodes ==> NodeOK(t, id)
  }

  ghost predicate AllUp(t: Tree, orphan: Ref) {
    forall id {:trigger UpOK(t, id)} :: id in t.nodes && id != orphan ==> UpOK(t, id)
  }

  ghost predicate AllStored(t: Tree) {
    forall p {:trigger Stored(t, p)} :: p in t.contents ==> Stored(t, p)
  }

  ghost predicate RootOK(t: Tree, orphan: Ref) {
    && Null !in t.nodes
    && (t.root != Null ==> t.root in t.nodes)
    && (t.root == Null ==> t.nodes == map[])
    && (orphan != Null ==> orphan != t.root)
    && (forall id :: id in t.nodes && id != orphan && id != t.root ==> t.nodes[id].level < t.nodes[t.root].level)
  }

  /** The structure of a tree, occupancy apart; `orphan` (null if none) is a node that nobody has
      taken as a kid yet. */
  ghost predicate Struct(t: Tree, orphan: Ref) {
    RootOK(t, orphan) && AllNodes(t) && AllUp(t, orphan) && AllStored(t) && Injective(t.contents)
  }

  /** `key`/`h` is to go in node `s` before its key number `j`, with `right` as the kid following
      it; the kid preceding it is in place already. */
  ghost predicate Pending(t: Tree, s: Ref, j: nat, key: int, h: Ref, right: Ref) {
    && key !in t.contents && h != Null && h in t.hpar && (forall p :: p in t.contents ==> t.contents[p] != h)
    && s in t.nodes && s != right
    && var v := t.nodes[s];
    && key in v.rng && |v.kids| == |v.keys| + 1
    && j <= |v.keys|
    && (forall k :: 0 <= k < j ==> v.keys[k] < key)
    && (forall k :: j <= k < |v.keys| ==> key < v.keys[k])
    && (v.level == 0 ==> right == Null)
    && (v.level > 0 ==>
          && right in t.nodes && right !in v.kids && t.nodes[right].parent == s
          && t.nodes[right].level + 1 == v.level
          && v.kids[j] in t.nodes
          && (forall x :: x in t.nodes[v.kids[j]].rng ==> x < key)
          && (forall x :: x in t.nodes[right].rng ==> x in v.rng && key < x && (j < |v.keys| ==> x < v.keys[j])))
  }

  function Ins<T>(s: seq<T>, j: nat, x: T): (r: seq<T>)
    requires j <= |s|
    ensures |r| == |s| + 1 && r[j] == x
    ensures forall k :: 0 <= k < j ==> r[k] == s[k]
    ensures forall k :: j < k < |r| ==> r[k] == s[k-1]
  {
    seq(|s| + 1, k requires 0 <= k <= |s| => if k < j then s[k] else if k == j then x else s[k-1])
  }

  function Del<T>(s: seq<T>, j: nat): (r: seq<T>)
    requires j < |s|
    ensures |r| == |s| - 1
    ensures forall k :: 0 <= k < j ==> r[k] == s[k]
    ensures forall k :: j <= k < |r| ==> r[k] == s[k+1]
  {
    seq(|s| - 1, k requires 0 <= k < |s| - 1 => if k < j then s[k] else s[k+1])
  }

  /** A node whose own entries are untouched stays well formed while its kids stay linked to it
      and do not outgrow their range. */
  lemma NodeFrame(t: Tree, t': Tree, id: Ref)
    requires id in t.nodes && id in t'.nodes && NodeOK(t, id)
    requires t'.nodes[id].(parent := Null) == t.nodes[id].(parent := Null)
    requires forall k :: 0 <= k < |t.nodes[id].keys| ==>
               var h, x := t.nodes[id].hs[k], t.nodes[id].keys[k];
               (h in t.hpar && t.hpar[h] == id ==> h in t'.hpar && t'.hpar[h] == id)
               && (x in t.contents && t.contents[x] == h ==> x in t'.contents && t'.contents[x] == h)
    requires t.nodes[id].level > 0 ==> forall k :: 0 <= k < |t.nodes[id].kids| ==> KidFrame(t, t', t.nodes[id].kids[k])
    ensures NodeOK(t', id)
  {
    var v := t.nodes[id];
    forall k | 0 <= k < |v.keys| ensures KeyOK(t', id, k) { assert KeyOK(t, id, k); }
    if v.level > 0 {
      forall k | 0 <= k < |v.kids| ensures KidOK(t', id, k) {
        assert KidOK(t, id, k); assert KidFrame(t, t', v.kids[k]);
      }
    }
  }

  ghost predicate KidFrame(t: Tree, t': Tree, c: Ref) {
    c in t.nodes ==> c in t'.nodes && t'.nodes[c].parent == t.nodes[c].parent
                     && t'.nodes[c].level == t.nodes[c].level && t'.nodes[c].rng <= t.nodes[c].rng
  }

  lemma StoredSomewhere(t: Tree, x: int)
    requires AllStored(t) && x in t.contents
    ensures exists id :: id in t.nodes && |t.nodes[id].keys| > 0
  {
    assert Stored(t, x);
    assert |t.nodes[t.hpar[t.contents[x]]].keys| > 0;
  }

  lemma StoredFrame(t: Tree, t': Tree, x: int)
    requires x in t.contents && Stored(t, x) && x in t'.contents && t'.contents[x] == t.contents[x]
    requires var h := t.contents[x]; h in t.hpar ==> h in t'.hpar && t'.hpar[h] == t.hpar[h]
    requires var y := t.hpar[t.contents[x]];
             y in t'.nodes && t'.nodes[y].keys == t.nodes[y].keys && t'.nodes[y].hs == t.nodes[y].hs
    ensures Stored(t', x)
  {
  }

  // ---------------------------------------------------------------- inserting into a node

  ghost function InsertAt(t: Tree, s: Ref, j: nat, key: int, h: Ref, right: Ref): Tree
    requires s in t.nodes && j <= |t.nodes[s].keys| == |t.nodes[s].hs| && |t.nodes[s].kids| == |t.nodes[s].keys| + 1
  {
    var v := t.nodes[s];
    t.(nodes := t.nodes[s := v.(keys := Ins(v.keys, j, key), hs := Ins(v.hs, j, h), kids := Ins(v.kids, j + 1, right))],
       hpar := t.hpar[h := s],
       contents := t.contents[key := h])
  }

  lemma InsertAtKey(t: Tree, s: Ref, j: nat, key: int, h: Ref, right: Ref, k: nat)
    requires Pending(t, s, j, key, h, right) && NodeOK(t, s) && k <= |t.nodes[s].keys|
    ensures KeyOK(InsertAt(t, s, j, key, h, right), s, k)
  {
    var t' := InsertAt(t, s, j, key, h, right);
    if k < j {
      assert KeyOK(t, s, k);
      assert t'.nodes[s].keys[k] == t.nodes[s].keys[k];
    } else if k > j {
      assert KeyOK(t, s, k - 1);
      assert t'.nodes[s].keys[k] == t.nodes[s].keys[k-1];
    }
  }

  lemma InsertAtKid(t: Tree, s: Ref, j: nat, key: int, h: Ref, right: Ref, k: nat)
    requires Pending(t, s, j, key, h, right) && NodeOK(t, s) && k <= |t.nodes[s].kids| && t.nodes[s].level > 0
    ensures KidOK(InsertAt(t, s, j, key, h, right), s, k)
  {
    if k <= j {
      assert KidOK(t, s, k);
    } else if k > j + 1 {
      assert KidOK(t, s, k - 1);
    }
  }

  lemma InsertAtNode(t: Tree, s: Ref, j: nat, key: int, h: Ref, right: Ref)
    requires Pending(t, s, j, key, h, right) && NodeOK(t, s)
    ensures NodeOK(InsertAt(t, s, j, key, h, right), s)
  {
    var t' := InsertAt(t, s, j, key, h, right);
    forall k | 0 <= k < |t'.nodes[s].keys| ensures KeyOK(t', s, k) { InsertAtKey(t, s, j, key, h, right, k); }
    if t.nodes[s].level > 0 {
      forall k | 0 <= k < |t'.nodes[s].kids| ensures KidOK(t', s, k) { InsertAtKid(t, s, j, key, h, right, k); }
    }
  }

  lemma InsertAtOther(t: Tree, s: Ref, j: nat, key: int, h: Ref, right: Ref, id: Ref)
    requires Pending(t, s, j, key, h, right) && NodeOK(t, s) && id in t.nodes && id != s && NodeOK(t, id)
    ensures NodeOK(InsertAt(t, s, j, key, h, right), id)
  {
    var t' := InsertAt(t, s, j, key, h, right);
    var v := t.nodes[id];
    forall k | 0 <= k < |v.keys| ensures v.hs[k] != h && v.keys[k] != key {
      assert KeyOK(t, id, k);
      var x := v.keys[k];
      assert x in t.contents;
      assert t.contents[x] == v.hs[k];
      assert t.contents[x] != h;
    }
    NodeFrame(t, t', id);
  }

  lemma InsertAtUp(t: Tree, s: Ref, j: nat, key: int, h: Ref, right: Ref, id: Ref)
    requires Pending(t, s, j, key, h, right) && NodeOK(t, s) && id in t.nodes && (id != right ==> UpOK(t, id))
    requires right != t.root && Null !in t.nodes
    ensures UpOK(InsertAt(t, s, j, key, h, right), id)
  {
    var t' := InsertAt(t, s, j, key, h, right);
    var v, v' := t.nodes[s], t'.nodes[s];
    if id == right {
      assert v'.kids[j+1] == right;
    } else {
      if id != t.root && t.nodes[id].parent == s {
        var i :| 0 <= i < |v.kids| && v.kids[i] == id;
        assert v'.kids[if i <= j then i else i + 1] == id;
      }
    }
  }

  lemma InsertAtStored(t: Tree, s: Ref, j: nat, key: int, h: Ref, right: Ref, p: int)
    requires Pending(t, s, j, key, h, right) && NodeOK(t, s) && (p == key || (p in t.contents && Stored(t, p)))
    ensures Stored(InsertAt(t, s, j, key, h, right), p)
  {
    var t' := InsertAt(t, s, j, key, h, right);
    var v' := t'.nodes[s];
    if p == key {
      assert v'.keys[j] == key && v'.hs[j] == h;
    } else {
      var hh := t.contents[p];
      var x := t.hpar[hh];
      var k :| 0 <= k < |t.nodes[x].keys| == |t.nodes[x].hs| && t.nodes[x].keys[k] == p && t.nodes[x].hs[k] == hh;
      if x == s {
        var k' := if k < j then k else k + 1;
        assert v'.keys[k'] == p && v'.hs[k'] == hh;
      } else {
        assert t'.nodes[x].keys[k] == p;
      }
    }
  }

  lemma InsertAtAll(t: Tree, s: Ref, j: nat, key: int, h: Ref, right: Ref)
    requires Pending(t, s, j, key, h, right) && AllNodes(t) && AllStored(t) && NodeOK(t, s)
    ensures AllNodes(InsertAt(t, s, j, key, h, right)) && AllStored(InsertAt(t, s, j, key, h, right))
  {
    var t' := InsertAt(t, s, j, key, h, right);
    InsertAtNode(t, s, j, key, h, right);
    forall id | id in t'.nodes && id != s ensures NodeOK(t', id) { InsertAtOther(t, s, j, key, h, right, id); }
    forall p | p in t'.contents ensures Stored(t', p) { InsertAtStored(t, s, j, key, h, right, p); }
  }

  /** Placing a pending entry restores the structure and adds exactly that entry. */
  lemma InsertAtStruct(t: Tree, s: Ref, j: nat, key: int, h: Ref, right: Ref)
    requires Struct(t, right) && Pending(t, s, j, key, h, right) && NodeOK(t, s)
    ensures Struct(InsertAt(t, s, j, key, h, right), Null)
  {
    var t' := InsertAt(t, s, j, key, h, right);
    InsertAtAll(t, s, j, key, h, right);
    assert AllUp(t', Null) by {
      forall id | id in t'.nodes ensures UpOK(t', id) { InsertAtUp(t, s, j, key, h, right, id); }
    }
    assert RootOK(t', Null) by { InsertAtLevel(t, s, j, key, h, right); }
    assert Injective(t'.contents);
  }

  lemma InsertAtLevel(t: Tree, s: Ref, j: nat, key: int, h: Ref, right: Ref)
    requires RootOK(t, right) && Pending(t, s, j, key, h, right) && NodeOK(t, s)
    ensures RootOK(InsertAt(t, s, j, key, h, right), Null)
  {
  }

  // ---------------------------------------------------------------- splitting a node

  /** The nodes once `s` has kept what precedes its key number `pos` and `r` has taken what
      follows it. */
  ghost function SplitNodes(t: Tree, s: Ref, pos: nat, r: Ref): (m: map<Ref, View>)
    requires s in t.nodes && pos < |t.nodes[s].keys| == |t.nodes[s].hs| && |t.nodes[s].kids| == |t.nodes[s].keys| + 1
  {
    var v := t.nodes[s];
    var mid := v.keys[pos];
    map id | id in t.nodes.Keys + {r} ::
      if id == r then
        View(v.keys[pos+1..], v.hs[pos+1..], v.kids[pos+1..], v.parent, v.level, set x | x in v.rng && mid < x)
      else if id == s then
        View(v.keys[..pos], v.hs[..pos], v.kids[..pos+1], v.parent, v.level, set x | x in v.rng && x < mid)
      else if v.level > 0 && id in v.kids[pos+1..] then t.nodes[id].(parent := r)
      else t.nodes[id]
  }

  lemma SplitCard(t: Tree, s: Ref, pos: nat, r: Ref)
    requires s in t.nodes && pos < |t.nodes[s].keys| == |t.nodes[s].hs| && |t.nodes[s].kids| == |t.nodes[s].keys| + 1
    requires r !in t.nodes
    ensures |SplitNodes(t, s, pos, r)| == |t.nodes| + 1
  {
    assert SplitNodes(t, s, pos, r).Keys == t.nodes.Keys + {r};
  }

  /** Handle links after the split: entries follow their key, other nodes' entries stay put. */
  ghost predicate SplitLinks(t: Tree, s: Ref, pos: nat, r: Ref, hp: map<Ref, Ref>)
    requires s in t.nodes && pos < |t.nodes[s].keys| == |t.nodes[s].hs|
  {
    var v := t.nodes[s];
    && (forall h :: h in t.hpar ==> h in hp)
    && (forall h :: h in t.hpar && t.hpar[h] != s ==> hp[h] == t.hpar[h])
    && (forall k :: 0 <= k < pos && v.hs[k] in hp ==> hp[v.hs[k]] == s)
    && (forall k :: pos < k < |v.hs| && v.hs[k] in hp ==> hp[v.hs[k]] == r)
  }

  ghost function SplitAt(t: Tree, s: Ref, pos: nat, r: Ref, hp: map<Ref, Ref>): Tree
    requires s in t.nodes && pos < |t.nodes[s].keys| == |t.nodes[s].hs| && |t.nodes[s].kids| == |t.nodes[s].keys| + 1
  {
    Tree(SplitNodes(t, s, pos, r), hp, t.root, t.contents - {t.nodes[s].keys[pos]})
  }

  ghost predicate CanSplit(t: Tree, s: Ref, pos: nat, r: Ref, hp: map<Ref, Ref>) {
    && s in t.nodes && NodeOK(t, s) && r !in t.nodes && r != Null
    && pos < |t.nodes[s].keys| && SplitLinks(t, s, pos, r, hp)
  }

  /** The parent link of a kid leads back to the node it was reached from. */
  lemma ParentOf(t: Tree, a: Ref, c: Ref)
    requires a in t.nodes && NodeOK(t, a) && t.nodes[a].level > 0 && c in t.nodes[a].kids
    ensures c in t.nodes && t.nodes[c].parent == a && t.nodes[c].level + 1 == t.nodes[a].level
  {
    var i :| 0 <= i < |t.nodes[a].kids| && t.nodes[a].kids[i] == c;
    assert KidOK(t, a, i);
  }

  lemma SplitKey(t: Tree, s: Ref, pos: nat, r: Ref, hp: map<Ref, Ref>, k: nat)
    requires CanSplit(t, s, pos, r, hp) && k < |t.nodes[s].keys| && k != pos
    ensures var t' := SplitAt(t, s, pos, r, hp);
            if k < pos then KeyOK(t', s, k) else KeyOK(t', r, k - pos - 1)
  {
    assert KeyOK(t, s, k);
  }

  lemma SplitKid(t: Tree, s: Ref, pos: nat, r: Ref, hp: map<Ref, Ref>, k: nat)
    requires CanSplit(t, s, pos, r, hp) && k < |t.nodes[s].kids| && t.nodes[s].level > 0
    ensures var t' := SplitAt(t, s, pos, r, hp);
            if k <= pos then KidOK(t', s, k) else KidOK(t', r, k - pos - 1)
  {
    var v := t.nodes[s];
    assert KidOK(t, s, k);
    if k > pos {
      assert v.kids[k] == v.kids[pos+1..][k-pos-1];
    } else {
      assert v.kids[k] !in v.kids[pos+1..];
    }
  }

  lemma SplitHalves(t: Tree, s: Ref, pos: nat, r: Ref, hp: map<Ref, Ref>)
    requires CanSplit(t, s, pos, r, hp)
    ensures NodeOK(SplitAt(t, s, pos, r, hp), s) && NodeOK(SplitAt(t, s, pos, r, hp), r)
  {
    var t' := SplitAt(t, s, pos, r, hp);
    var v := t.nodes[s];
    forall k | 0 <= k < pos ensures KeyOK(t', s, k) { SplitKey(t, s, pos, r, hp, k); }
    forall k | 0 <= k < |v.keys| - pos - 1 ensures KeyOK(t', r, k) { SplitKey(t, s, pos, r, hp, k + pos + 1); }
    if v.level > 0 {
      forall k | 0 <= k <= pos ensures KidOK(t', s, k) { SplitKid(t, s, pos, r, hp, k); }
      forall k | 0 <= k < |v.kids| - pos - 1 ensures KidOK(t', r, k) { SplitKid(t, s, pos, r, hp, k + pos + 1); }
    }
  }

  lemma SplitOther(t: Tree, s: Ref, pos: nat, r: Ref, hp: map<Ref, Ref>, id: Ref)
    requires CanSplit(t, s, pos, r, hp) && id in t.nodes && id != s && NodeOK(t, id)
    ensures NodeOK(SplitAt(t, s, pos, r, hp), id)
  {
    var t' := SplitAt(t, s, pos, r, hp);
    var v := t.nodes[id];
    forall k | 0 <= k < |v.keys| ensures KeyOK(t', id, k) {
      assert KeyOK(t, id, k) && KeyOK(t, s, pos);
    }
    if v.level > 0 {
      forall k | 0 <= k < |v.kids| ensures KidOK(t', id, k) {
        assert KidOK(t, id, k);
        assert t.nodes[s].level > 0 ==> v.kids[k] !in t.nodes[s].kids by {
          if t.nodes[s].level > 0 && v.kids[k] in t.nodes[s].kids { ParentOf(t, s, v.kids[k]); }
        }
      }
    }
  }

  lemma SplitUp(t: Tree, s: Ref, pos: nat, r: Ref, hp: map<Ref, Ref>, id: Ref)
    requires CanSplit(t, s, pos, r, hp) && id in t.nodes && UpOK(t, id) && t.root in t.nodes && UpOK(t, t.root)
    requires Null !in t.nodes
    ensures UpOK(SplitAt(t, s, pos, r, hp), id)
  {
    var t' := SplitAt(t, s, pos, r, hp);
    var v := t.nodes[s];
    if v.level > 0 && id in v.kids {
      ParentOf(t, s, id);
      var i :| 0 <= i < |v.kids| && v.kids[i] == id;
      SplitKid(t, s, pos, r, hp, i);
      assert i <= pos ==> t'.nodes[s].kids[i] == id;
      assert i > pos ==> t'.nodes[r].kids[i-pos-1] == id;
    }
  }

  lemma SplitStored(t: Tree, s: Ref, pos: nat, r: Ref, hp: map<Ref, Ref>, p: int)
    requires CanSplit(t, s, pos, r, hp) && p in t.contents && p != t.nodes[s].keys[pos] && Stored(t, p)
    ensures Stored(SplitAt(t, s, pos, r, hp), p)
  {
    var t' := SplitAt(t, s, pos, r, hp);
    var h := t.contents[p];
    var x := t.hpar[h];
    var k :| 0 <= k < |t.nodes[x].keys| == |t.nodes[x].hs| && t.nodes[x].keys[k] == p && t.nodes[x].hs[k] == h;
    if x != s {
      assert t'.nodes[x].keys[k] == p && t'.nodes[x].hs[k] == h;
    } else if k < pos {
      assert t'.nodes[s].keys[k] == p && t'.nodes[s].hs[k] == h;
    } else {
      assert t'.nodes[r].keys[k-pos-1] == p && t'.nodes[r].hs[k-pos-1] == h;
    }
  }

  lemma SplitAll(t: Tree, s: Ref, pos: nat, r: Ref, hp: map<Ref, Ref>)
    requires CanSplit(t, s, pos, r, hp) && AllNodes(t) && AllStored(t)
    ensures AllNodes(SplitAt(t, s, pos, r, hp)) && AllStored(SplitAt(t, s, pos, r, hp))
  {
    var t' := SplitAt(t, s, pos, r, hp);
    SplitHalves(t, s, pos, r, hp);
    forall id | id in t'.nodes && id != s && id != r ensures NodeOK(t', id) { SplitOther(t, s, pos, r, hp, id); }
    forall p | p in t'.contents ensures Stored(t', p) { SplitStored(t, s, pos, r, hp, p); }
  }

  /** Splitting keeps the structure, with the new node an orphan and the middle entry taken out. */
  lemma SplitAtStruct(t: Tree, s: Ref, pos: nat, r: Ref, hp: map<Ref, Ref>)
    requires Struct(t, Null) && CanSplit(t, s, pos, r, hp)
    ensures Struct(SplitAt(t, s, pos, r, hp), r)
  {
    var t' := SplitAt(t, s, pos, r, hp);
    SplitAll(t, s, pos, r, hp);
    assert AllUp(t', r) by {
      assert UpOK(t, t.root);
      forall id | id in t'.nodes && id != r ensures UpOK(t', id) { SplitUp(t, s, pos, r, hp, id); }
    }
  }

  /** The middle entry is then pending in the parent, right after the kid that was split. */
  lemma SplitAtPending(t: Tree, s: Ref, pos: nat, r: Ref, hp: map<Ref, Ref>, q: Ref, j: nat)
    requires CanSplit(t, s, pos, r, hp) && Injective(t.contents)
    requires q in t.nodes && NodeOK(t, q) && t.nodes[q].level > 0
    requires j < |t.nodes[q].kids| && t.nodes[q].kids[j] == s
    ensures Pending(SplitAt(t, s, pos, r, hp), q, j, t.nodes[s].keys[pos], t.nodes[s].hs[pos], r)
  {
    var t' := SplitAt(t, s, pos, r, hp);
    assert KeyOK(t, s, pos) && KidOK(t, q, j);
    var mid, mh := t.nodes[s].keys[pos], t.nodes[s].hs[pos];
    assert t'.nodes[q].(parent := Null) == t.nodes[q].(parent := Null);
    assert r !in t.nodes[q].kids by {
      if r in t.nodes[q].kids { ParentOf(t, q, r); }
    }
    var ks := t.nodes[q].keys;
    assert forall k :: 0 <= k < j ==> ks[k] < mid by { assert j > 0 ==> ks[j-1] < mid; }
    assert forall k :: j <= k < |ks| ==> mid < ks[k] by { assert j < |ks| ==> mid < ks[j]; }
  }

  // ---------------------------------------------------------------- merging two siblings

  ghost predicate CanMerge(t: Tree, p: Ref, i: nat, hp: map<Ref, Ref>) {
    && p in t.nodes && NodeOK(t, p) && t.nodes[p].level > 0 && i < |t.nodes[p].keys|
    && KidOK(t, p, i) && KidOK(t, p, i + 1)
    && NodeOK(t, t.nodes[p].kids[i]) && NodeOK(t, t.nodes[p].kids[i+1])
    && MergeLinks(t, p, i, hp)
  }

  ghost predicate MergeLinks(t: Tree, p: Ref, i: nat, hp: map<Ref, Ref>)
    requires p in t.nodes && i < |t.nodes[p].keys| == |t.nodes[p].hs| && |t.nodes[p].kids| == |t.nodes[p].keys| + 1
    requires t.nodes[p].kids[i+1] in t.nodes
  {
    var v := t.nodes[p];
    var r := v.kids[i+1];
    && (forall h :: h in t.hpar ==> h in hp)
    && (forall h :: h in t.hpar && t.hpar[h] != r && h != v.hs[i] ==> hp[h] == t.hpar[h])
    && (forall k :: 0 <= k < |t.nodes[r].hs| && t.nodes[r].hs[k] in hp ==> hp[t.nodes[r].hs[k]] == v.kids[i])
    && (v.hs[i] in hp ==> hp[v.hs[i]] == v.kids[i])
  }

  /** Kid `i` of `p` takes the parent's key number `i` and everything kid `i + 1` holds; kid
      `i + 1` goes. */
  ghost function MergeNodes(t: Tree, p: Ref, i: nat): (m: map<Ref, View>)
    requires p in t.nodes && i < |t.nodes[p].keys| == |t.nodes[p].hs| && |t.nodes[p].kids| == |t.nodes[p].keys| + 1
    requires t.nodes[p].kids[i] in t.nodes && t.nodes[p].kids[i+1] in t.nodes
  {
    var v := t.nodes[p];
    var l, r := v.kids[i], v.kids[i+1];
    var lv, rv := t.nodes[l], t.nodes[r];
    map id | id in t.nodes && id != r ::
      if id == l then
        View(lv.keys + [v.keys[i]] + rv.keys, lv.hs + [v.hs[i]] + rv.hs, lv.kids + rv.kids, p, lv.level,
             lv.rng + {v.keys[i]} + rv.rng)
      else if id == p then v.(keys := Del(v.keys, i), hs := Del(v.hs, i), kids := Del(v.kids, i + 1))
      else if rv.level > 0 && id in rv.kids then t.nodes[id].(parent := l)
      else t.nodes[id]
  }

  ghost function MergeAt(t: Tree, p: Ref, i: nat, hp: map<Ref, Ref>): Tree
    requires p in t.nodes && i < |t.nodes[p].keys| == |t.nodes[p].hs| && |t.nodes[p].kids| == |t.nodes[p].keys| + 1
    requires t.nodes[p].kids[i] in t.nodes && t.nodes[p].kids[i+1] in t.nodes
  {
    t.(nodes := MergeNodes(t, p, i), hpar := hp)
  }

  lemma MergeParentKey(t: Tree, p: Ref, i: nat, hp: map<Ref, Ref>, k: nat)
    requires CanMerge(t, p, i, hp) && Injective(t.contents) && k < |MergeNodes(t, p, i)[p].keys|
    ensures KeyOK(MergeAt(t, p, i, hp), p, k)
  {
    var v, v' := t.nodes[p], MergeAt(t, p, i, hp).nodes[p];
    var k0 := if k < i then k else k + 1;
    assert v'.keys[k] == v.keys[k0] && v'.hs[k] == v.hs[k0];
    assert KeyOK(t, p, k0) && KeyOK(t, p, i);
  }

  lemma MergeParentKid(t: Tree, p: Ref, i: nat, hp: map<Ref, Ref>, k: nat)
    requires CanMerge(t, p, i, hp) && k < |MergeNodes(t, p, i)[p].kids|
    ensures KidOK(MergeAt(t, p, i, hp), p, k)
  {
    var v, v' := t.nodes[p], MergeAt(t, p, i, hp).nodes[p];
    var k0 := if k <= i then k else k + 1;
    assert v'.kids[k] == v.kids[k0];
    assert KidOK(t, p, k0);
    if k0 != i {
      var rv := t.nodes[v.kids[i+1]];
      assert rv.level > 0 ==> v.kids[k0] !in rv.kids by {
        if rv.level > 0 && v.kids[k0] in rv.kids { ParentOf(t, v.kids[i+1], v.kids[k0]); }
      }
    } else {
      assert KeyOK(t, p, i);
    }
  }

  lemma MergeParent(t: Tree, p: Ref, i: nat, hp: map<Ref, Ref>)
    requires CanMerge(t, p, i, hp) && Injective(t.contents)
    ensures NodeOK(MergeAt(t, p, i, hp), p)
  {
    var t' := MergeAt(t, p, i, hp);
    forall k | 0 <= k < |t'.nodes[p].keys| ensures KeyOK(t', p, k) { MergeParentKey(t, p, i, hp, k); }
    forall k | 0 <= k < |t'.nodes[p].kids| ensures KidOK(t', p, k) { MergeParentKid(t, p, i, hp, k); }
  }

  lemma MergeKid(t: Tree, p: Ref, i: nat, hp: map<Ref, Ref>, k: nat)
    requires CanMerge(t, p, i, hp)
    requires t.nodes[t.nodes[p].kids[i]].level > 0
    requires k < |MergeNodes(t, p, i)[t.nodes[p].kids[i]].kids|
    ensures KidOK(MergeAt(t, p, i, hp), t.nodes[p].kids[i], k)
  {
    var v := t.nodes[p];
    var l, r := v.kids[i], v.kids[i+1];
    var lv, rv := t.nodes[l], t.nodes[r];
    if k < |lv.kids| {
      assert KidOK(t, l, k);
      var c := lv.kids[k];
      assert c !in rv.kids by { if c in rv.kids { ParentOf(t, r, c); } }
    } else {
      assert KidOK(t, r, k - |lv.kids|);
    }
  }

  lemma MergeMerged(t: Tree, p: Ref, i: nat, hp: map<Ref, Ref>)
    requires CanMerge(t, p, i, hp)
    ensures NodeOK(MergeAt(t, p, i, hp), t.nodes[p].kids[i])
  {
    var t' := MergeAt(t, p, i, hp);
    var v := t.nodes[p];
    var l, r := v.kids[i], v.kids[i+1];
    var lv, rv, v' := t.nodes[l], t.nodes[r], t'.nodes[l];
    assert KeyOK(t, p, i);
    forall k | 0 <= k < |v'.keys| ensures KeyOK(t', l, k) {
      if k < |lv.keys| {
        assert KeyOK(t, l, k);
      } else if k > |lv.keys| {
        assert KeyOK(t, r, k - |lv.keys| - 1);
      }
    }
    assert Sorted(v'.keys) by {
      forall k | 0 <= k < |lv.keys| ensures lv.keys[k] < v.keys[i] { assert KeyOK(t, l, k); }
      forall k | 0 <= k < |rv.keys| ensures v.keys[i] < rv.keys[k] { assert KeyOK(t, r, k); }
    }
    if lv.level > 0 {
      forall k | 0 <= k < |v'.kids| ensures KidOK(t', l, k) { MergeKid(t, p, i, hp, k); }
      MergeDistinct(t, l, r);
    }
  }

  lemma MergeDistinct(t: Tree, l: Ref, r: Ref)
    requires l in t.nodes && r in t.nodes && l != r && NodeOK(t, l) && NodeOK(t, r)
    requires t.nodes[l].level > 0 && t.nodes[r].level > 0
    ensures var ks := t.nodes[l].kids + t.nodes[r].kids; forall a, b :: 0 <= a < b < |ks| ==> ks[a] != ks[b]
  {
    var lk, rk := t.nodes[l].kids, t.nodes[r].kids;
    forall a, b | 0 <= a < |lk| && 0 <= b < |rk| ensures lk[a] != rk[b] {
      ParentOf(t, l, lk[a]);
      ParentOf(t, r, rk[b]);
    }
  }

  lemma MergeOther(t: Tree, p: Ref, i: nat, hp: map<Ref, Ref>, id: Ref)
    requires CanMerge(t, p, i, hp)
    requires id in t.nodes && id != p && id != t.nodes[p].kids[i] && id != t.nodes[p].kids[i+1] && NodeOK(t, id)
    ensures NodeOK(MergeAt(t, p, i, hp), id)
  {
    var t' := MergeAt(t, p, i, hp);
    var v := t.nodes[id];
    var l, r := t.nodes[p].kids[i], t.nodes[p].kids[i+1];
    var rv := t.nodes[r];
    forall k | 0 <= k < |v.keys| ensures KeyOK(t', id, k) { assert KeyOK(t, id, k) && KeyOK(t, p, i); }
    if v.level > 0 {
      forall k | 0 <= k < |v.kids| ensures KidOK(t', id, k) {
        assert KidOK(t, id, k);
        assert rv.level > 0 ==> v.kids[k] !in rv.kids by {
          if rv.level > 0 && v.kids[k] in rv.kids { ParentOf(t, r, v.kids[k]); }
        }
      }
    }
  }

  lemma MergeUp(t: Tree, p: Ref, i: nat, hp: map<Ref, Ref>, id: Ref)
    requires CanMerge(t, p, i, hp) && id in t.nodes && id != t.nodes[p].kids[i+1] && UpOK(t, id)
    requires Null !in t.nodes && t.root in t.nodes && UpOK(t, t.root)
    ensures UpOK(MergeAt(t, p, i, hp), id)
  {
    var t' := MergeAt(t, p, i, hp);
    var v := t.nodes[p];
    var l, r := v.kids[i], v.kids[i+1];
    var lv, rv := t.nodes[l], t.nodes[r];
    if rv.level > 0 && id in rv.kids {
      ParentOf(t, r, id);
      var k :| 0 <= k < |rv.kids| && rv.kids[k] == id;
      assert t'.nodes[l].kids[|lv.kids| + k] == id;
    } else if id != t.root && t.nodes[id].parent == p {
      MergeUpParent(t, p, i, hp, id);
    } else if id != t.root && t.nodes[id].parent == l {
      var k :| 0 <= k < |lv.kids| && lv.kids[k] == id;
      assert t'.nodes[l].kids[k] == id;
    }
  }

  lemma MergeUpParent(t: Tree, p: Ref, i: nat, hp: map<Ref, Ref>, id: Ref)
    requires CanMerge(t, p, i, hp) && id in t.nodes && id != t.nodes[p].kids[i+1] && id in t.nodes[p].kids
    ensures id in MergeAt(t, p, i, hp).nodes[p].kids
  {
    var v := t.nodes[p];
    var k :| 0 <= k < |v.kids| && v.kids[k] == id;
    assert MergeAt(t, p, i, hp).nodes[p].kids[if k <= i then k else k - 1] == id;
  }

  lemma MergeStored(t: Tree, p: Ref, i: nat, hp: map<Ref, Ref>, x: int)
    requires CanMerge(t, p, i, hp) && x in t.contents && Stored(t, x) && Injective(t.contents)
    ensures Stored(MergeAt(t, p, i, hp), x)
  {
    var t' := MergeAt(t, p, i, hp);
    var h := t.contents[x];
    var y := t.hpar[h];
    assert KeyOK(t, p, i);
    if y == p {
      MergeStoredParent(t, p, i, hp, x);
    } else if y == t.nodes[p].kids[i+1] {
      MergeStoredRight(t, p, i, hp, x);
    } else if y == t.nodes[p].kids[i] {
      var k :| 0 <= k < |t.nodes[y].keys| == |t.nodes[y].hs| && t.nodes[y].keys[k] == x && t.nodes[y].hs[k] == h;
      assert t'.nodes[y].keys[k] == x && t'.nodes[y].hs[k] == h;
    } else {
      StoredFrame(t, t', x);
    }
  }

  lemma MergeStoredRight(t: Tree, p: Ref, i: nat, hp: map<Ref, Ref>, x: int)
    requires CanMerge(t, p, i, hp) && x in t.contents && Stored(t, x) && t.hpar[t.contents[x]] == t.nodes[p].kids[i+1]
    ensures Stored(MergeAt(t, p, i, hp), x)
  {
    var t' := MergeAt(t, p, i, hp);
    var l, r := t.nodes[p].kids[i], t.nodes[p].kids[i+1];
    var n := |t.nodes[l].keys|;
    var h := t.contents[x];
    var k :| 0 <= k < |t.nodes[r].keys| == |t.nodes[r].hs| && t.nodes[r].keys[k] == x && t.nodes[r].hs[k] == h;
    assert t'.nodes[l].keys[n+1+k] == x && t'.nodes[l].hs[n+1+k] == h;
  }

  lemma MergeStoredParent(t: Tree, p: Ref, i: nat, hp: map<Ref, Ref>, x: int)
    requires CanMerge(t, p, i, hp) && x in t.contents && Stored(t, x) && Injective(t.contents)
    requires t.hpar[t.contents[x]] == p && KeyOK(t, p, i)
    ensures Stored(MergeAt(t, p, i, hp), x)
  {
    var t' := MergeAt(t, p, i, hp);
    var v := t.nodes[p];
    var l := v.kids[i];
    var n := |t.nodes[l].keys|;
    var h := t.contents[x];
    var k :| 0 <= k < |v.keys| == |v.hs| && v.keys[k] == x && v.hs[k] == h;
    if k == i {
      assert t'.nodes[l].keys[n] == x && t'.nodes[l].hs[n] == h;
    } else {
      var k' := if k < i then k else k - 1;
      assert t'.nodes[p].keys[k'] == x && t'.nodes[p].hs[k'] == h;
    }
  }

  lemma MergeAll(t: Tree, p: Ref, i: nat, hp: map<Ref, Ref>)
    requires CanMerge(t, p, i, hp) && AllNodes(t) && AllStored(t) && Injective(t.contents)
    ensures AllNodes(MergeAt(t, p, i, hp)) && AllStored(MergeAt(t, p, i, hp))
  {
    var t' := MergeAt(t, p, i, hp);
    var l := t.nodes[p].kids[i];
    MergeParent(t, p, i, hp);
    MergeMerged(t, p, i, hp);
    forall id | id in t'.nodes && id != p && id != l ensures NodeOK(t', id) { MergeOther(t, p, i, hp, id); }
    forall x | x in t'.contents ensures Stored(t', x) { MergeStored(t, p, i, hp, x); }
  }

  /** Merging keeps the structure and the contents. */
  lemma MergeAtStruct(t: Tree, p: Ref, i: nat, hp: map<Ref, Ref>)
    requires Struct(t, Null) && CanMerge(t, p, i, hp)
    ensures Struct(MergeAt(t, p, i, hp), Null)
  {
    var t' := MergeAt(t, p, i, hp);
    MergeAll(t, p, i, hp);
    assert t.root in t'.nodes by { assert UpOK(t, t.root); }
    assert AllUp(t', Null) by {
      assert UpOK(t, t.root);
      forall id | id in t'.nodes ensures UpOK(t', id) { MergeUp(t, p, i, hp, id); }
    }
  }

  // ---------------------------------------------------------------- growing and shrinking at the root

  /** Two halves of a split root, side by side. */
  ghost predicate TwoRoots(t: Tree, key: int, h: Ref, right: Ref) {
    && key !in t.contents && h != Null && h in t.hpar && (forall p :: p in t.contents ==> t.contents[p] != h)
    && t.root in t.nodes && right in t.nodes && right != t.root
    && t.nodes[right].parent == Null && t.nodes[right].level == t.nodes[t.root].level
    && (forall x :: x in t.nodes[t.root].rng ==> x < key)
    && (forall x :: x in t.nodes[right].rng ==> key < x)
  }

  lemma SplitAtRoot(t: Tree, s: Ref, pos: nat, r: Ref, hp: map<Ref, Ref>)
    requires Struct(t, Null) && CanSplit(t, s, pos, r, hp) && s == t.root
    ensures TwoRoots(SplitAt(t, s, pos, r, hp), t.nodes[s].keys[pos], t.nodes[s].hs[pos], r)
  {
    assert KeyOK(t, s, pos) && UpOK(t, s);
  }

  /** A fresh root over the left half; the right half still waits for its separating key. */
  ghost function GrowRoot(t: Tree, key: int, right: Ref, q: Ref): Tree
    requires t.root in t.nodes && right in t.nodes
  {
    var c := t.nodes[t.root];
    t.(nodes := t.nodes[t.root := c.(parent := q)][right := t.nodes[right].(parent := q)]
                [q := View([], [], [t.root], Null, c.level + 1, c.rng + {key} + t.nodes[right].rng)],
       root := q)
  }

  lemma GrowRootOther(t: Tree, key: int, right: Ref, q: Ref, id: Ref)
    requires t.root in t.nodes && UpOK(t, t.root) && right in t.nodes && t.nodes[right].parent == Null
             && Null !in t.nodes
    requires q !in t.nodes && id in t.nodes && NodeOK(t, id)
    ensures NodeOK(GrowRoot(t, key, right, q), id)
  {
    var t' := GrowRoot(t, key, right, q);
    var v := t.nodes[id];
    if v.level > 0 {
      forall k | 0 <= k < |v.kids| ensures KidFrame(t, t', v.kids[k]) { assert KidOK(t, id, k); }
    }
    NodeFrame(t, t', id);
  }

  lemma GrowRootAll(t: Tree, key: int, h: Ref, right: Ref, q: Ref)
    requires RootOK(t, right) && AllNodes(t) && AllStored(t) && AllUp(t, right)
    requires TwoRoots(t, key, h, right) && q !in t.nodes && q != Null
    ensures AllNodes(GrowRoot(t, key, right, q)) && AllStored(GrowRoot(t, key, right, q))
  {
    var t' := GrowRoot(t, key, right, q);
    assert KidOK(t', q, 0);
    assert UpOK(t, t.root);
    forall id | id in t'.nodes && id != q ensures NodeOK(t', id) { GrowRootOther(t, key, right, q, id); }
    forall x | x in t'.contents ensures Stored(t', x) { StoredFrame(t, t', x); }
  }

  lemma GrowRootStruct(t: Tree, key: int, h: Ref, right: Ref, q: Ref)
    requires Struct(t, right) && TwoRoots(t, key, h, right) && q !in t.nodes && q != Null
    ensures Struct(GrowRoot(t, key, right, q), right) && Pending(GrowRoot(t, key, right, q), q, 0, key, h, right)
  {
    var t' := GrowRoot(t, key, right, q);
    GrowRootAll(t, key, h, right, q);
    assert AllUp(t', right) by {
      forall id | id in t'.nodes && id != right ensures UpOK(t', id) {
        if id == t.root {
          assert t'.nodes[q].kids[0] == id;
        } else if id != q {
          assert UpOK(t, id);
        }
      }
    }
  }

  /** A keyless inner root gives way to its only kid. */
  ghost function CollapseRoot(t: Tree): Tree
    requires t.root in t.nodes && |t.nodes[t.root].kids| == 1 && t.nodes[t.root].kids[0] in t.nodes
  {
    var c := t.nodes[t.root].kids[0];
    t.(nodes := map id | id in t.nodes && id != t.root :: if id == c then t.nodes[c].(parent := Null) else t.nodes[id],
       root := c)
  }

  lemma CollapseRootOther(t: Tree, id: Ref)
    requires t.root in t.nodes && UpOK(t, t.root) && |t.nodes[t.root].kids| == 1 && t.nodes[t.root].kids[0] in t.nodes
    requires t.nodes[t.nodes[t.root].kids[0]].parent == t.root && Null !in t.nodes
    requires id in t.nodes && id != t.root && NodeOK(t, id)
    ensures NodeOK(CollapseRoot(t), id)
  {
    var t' := CollapseRoot(t);
    var v := t.nodes[id];
    if v.level > 0 {
      forall k | 0 <= k < |v.kids| ensures KidFrame(t, t', v.kids[k]) { assert KidOK(t, id, k); }
    }
    NodeFrame(t, t', id);
  }

  lemma CollapseRootUp(t: Tree, id: Ref)
    requires t.root in t.nodes && NodeOK(t, t.root) && |t.nodes[t.root].kids| == 1 && t.nodes[t.root].kids[0] in t.nodes
    requires t.nodes[t.root].level > 0
    requires id in t.nodes && id != t.root && UpOK(t, id) && NodeOK(t, t.nodes[id].parent) && Null !in t.nodes
    requires forall x :: x in t.nodes && x != t.root ==> t.nodes[x].level < t.nodes[t.root].level
    ensures var t' := CollapseRoot(t);
            UpOK(t', id) && t'.root in t'.nodes && (id != t'.root ==> t'.nodes[id].level < t'.nodes[t'.root].level)
  {
    ParentOf(t, t.nodes[id].parent, id);
    assert KidOK(t, t.root, 0);
  }

  lemma CollapseRootStruct(t: Tree)
    requires Struct(t, Null) && t.root in t.nodes && t.nodes[t.root].keys == [] && t.nodes[t.root].level > 0
    ensures |t.nodes[t.root].kids| == 1 && t.nodes[t.root].kids[0] in t.nodes && Struct(CollapseRoot(t), Null)
  {
    assert NodeOK(t, t.root) && KidOK(t, t.root, 0);
    assert UpOK(t, t.root);
    var t' := CollapseRoot(t);
    forall id | id in t'.nodes ensures NodeOK(t', id) { CollapseRootOther(t, id); }
    forall id | id in t'.nodes
      ensures UpOK(t', id) && (id != t'.root ==> t'.nodes[id].level < t'.nodes[t'.root].level) {
      assert UpOK(t, id);
      CollapseRootUp(t, id);
    }
    forall x | x in t'.contents ensures Stored(t', x) { StoredFrame(t, t', x); }
  }

  /** A keyless root that is also a leaf is the whole tree, and the tree is empty. */
  lemma EmptyRoot(t: Tree)
    requires Struct(t, Null) && t.root in t.nodes && t.nodes[t.root].keys == [] && t.nodes[t.root].level == 0
    ensures t.contents == map[] && t.nodes.Keys == {t.root}
    ensures Struct(t.(nodes := map[], root := Null), Null)
  {
    forall id | id in t.nodes ensures id == t.root { assert id != t.root ==> t.nodes[id].level < 0; }
    forall x ensures x !in t.contents {
      if x in t.contents { StoredSomewhere(t, x); }
    }
  }

  // ---------------------------------------------------------------- taking an entry out

  ghost function LeafDelete(t: Tree, s: Ref, i: nat): Tree
    requires s in t.nodes && i < |t.nodes[s].keys| == |t.nodes[s].hs| && |t.nodes[s].kids| == |t.nodes[s].keys| + 1
  {
    var v := t.nodes[s];
    t.(nodes := t.nodes[s := v.(keys := Del(v.keys, i), hs := Del(v.hs, i), kids := v.kids[..|v.keys|])],
       contents := t.contents - {v.keys[i]})
  }

  lemma LeafDeleteAll(t: Tree, s: Ref, i: nat)
    requires AllNodes(t) && AllStored(t) && Injective(t.contents)
    requires s in t.nodes && i < |t.nodes[s].keys| && t.nodes[s].level == 0 && NodeOK(t, s)
    ensures AllNodes(LeafDelete(t, s, i)) && AllStored(LeafDelete(t, s, i))
  {
    var t' := LeafDelete(t, s, i);
    var v, v' := t.nodes[s], t'.nodes[s];
    assert KeyOK(t, s, i);
    assert NodeOK(t', s) by {
      forall k | 0 <= k < |v'.keys| ensures KeyOK(t', s, k) {
        var k0 := if k < i then k else k + 1;
        assert v'.keys[k] == v.keys[k0] && v'.hs[k] == v.hs[k0] && KeyOK(t, s, k0);
      }
    }
    forall id | id in t'.nodes && id != s ensures NodeOK(t', id) {
      assert NodeOK(t, id);
      forall k | 0 <= k < |t.nodes[id].keys| ensures t.nodes[id].keys[k] != v.keys[i] { assert KeyOK(t, id, k); }
      NodeFrame(t, t', id);
    }
    forall x | x in t'.contents ensures Stored(t', x) { LeafDeleteStored(t, s, i, x); }
  }

  lemma LeafDeleteStored(t: Tree, s: Ref, i: nat, x: int)
    requires s in t.nodes && NodeOK(t, s) && i < |t.nodes[s].keys| && x in t.contents && Stored(t, x)
             && x != t.nodes[s].keys[i]
    ensures Stored(LeafDelete(t, s, i), x)
  {
    var t' := LeafDelete(t, s, i);
    var h := t.contents[x];
    var y := t.hpar[h];
    var k :| 0 <= k < |t.nodes[y].keys| == |t.nodes[y].hs| && t.nodes[y].keys[k] == x && t.nodes[y].hs[k] == h;
    var k' := if y == s && k > i then k - 1 else k;
    assert t'.nodes[y].keys[k'] == x && t'.nodes[y].hs[k'] == h;
  }

  lemma LeafDeleteStruct(t: Tree, s: Ref, i: nat)
    requires Struct(t, Null) && s in t.nodes && t.nodes[s].level == 0 && NodeOK(t, s) && i < |t.nodes[s].keys|
    ensures Struct(LeafDelete(t, s, i), Null)
  {
    var t' := LeafDelete(t, s, i);
    LeafDeleteAll(t, s, i);
    assert AllUp(t', Null) by {
      forall id | id in t'.nodes ensures UpOK(t', id) { assert UpOK(t, id); }
    }
  }

  /** `path` runs from the kid after key `i` of `s` down the leftmost kids to a leaf. */
  ghost predicate LeftPath(t: Tree, s: Ref, i: nat, path: seq<Ref>) {
    && s in t.nodes && t.nodes[s].level > 0 && i + 1 < |t.nodes[s].kids|
    && path != [] && path[0] == t.nodes[s].kids[i+1]
    && (forall k :: 0 <= k < |path| ==> path[k] in t.nodes)
    && (forall k :: 0 <= k < |path| ==> t.nodes[path[k]].level + k + 1 == t.nodes[s].level)
    && (forall k :: 0 <= k < |path| - 1 ==> |t.nodes[path[k]].kids| > 0 && t.nodes[path[k]].kids[0] == path[k+1])
  }

  /** The leaf at the end of such a path holds the successor of key `i`, and every node on the path
      admits it. */
  lemma SuccessorInRange(t: Tree, s: Ref, i: nat, path: seq<Ref>, k: nat)
    requires AllNodes(t) && LeftPath(t, s, i, path) && k < |path|
    requires |t.nodes[path[|path|-1]].keys| > 0
    ensures t.nodes[path[|path|-1]].keys[0] in t.nodes[path[k]].rng
    decreases |path| - k
  {
    var leaf := path[|path|-1];
    if k == |path| - 1 {
      assert NodeOK(t, leaf) && KeyOK(t, leaf, 0);
    } else {
      SuccessorInRange(t, s, i, path, k + 1);
      var b, c := path[k], path[k+1];
      assert t.nodes[b].level + k + 1 == t.nodes[s].level && t.nodes[c].level + (k + 1) + 1 == t.nodes[s].level;
      assert NodeOK(t, b) && KidOK(t, b, 0) && t.nodes[b].kids[0] == c;
      var q := t.nodes[leaf].keys[0];
      assert q in t.nodes[c].rng;
    }
  }

  /** Replace entry `i` of the inner node `s` by its successor, the first entry of the leaf at the
      end of `path`. */
  ghost function TakeSuccessor(t: Tree, s: Ref, i: nat, path: seq<Ref>): Tree
    requires LeftPath(t, s, i, path)
    requires i < |t.nodes[s].keys| == |t.nodes[s].hs|
    requires 0 < |t.nodes[path[|path|-1]].keys| == |t.nodes[path[|path|-1]].hs| && |t.nodes[path[|path|-1]].kids| > 0
  {
    var v, leaf := t.nodes[s], path[|path|-1];
    var lv := t.nodes[leaf];
    var q, qh := lv.keys[0], lv.hs[0];
    t.(nodes := map id | id in t.nodes ::
         if id == s then v.(keys := v.keys[i := q], hs := v.hs[i := qh])
         else if id == leaf then
           lv.(keys := lv.keys[1..], hs := lv.hs[1..], kids := lv.kids[1..], rng := set x | x in lv.rng && q < x)
         else if id in path then t.nodes[id].(rng := set x | x in t.nodes[id].rng && q < x)
         else t.nodes[id],
       hpar := t.hpar[qh := s],
       contents := t.contents - {v.keys[i]})
  }

  ghost predicate CanTake(t: Tree, s: Ref, i: nat, path: seq<Ref>) {
    && LeftPath(t, s, i, path) && AllNodes(t) && NodeOK(t, s) && i < |t.nodes[s].keys|
    && var leaf := path[|path|-1];
    && NodeOK(t, leaf) && t.nodes[leaf].level == 0 && |t.nodes[leaf].keys| > 0
  }

  lemma TakeNode(t: Tree, s: Ref, i: nat, path: seq<Ref>)
    requires CanTake(t, s, i, path) && Injective(t.contents)
    ensures NodeOK(TakeSuccessor(t, s, i, path), s)
  {
    var t' := TakeSuccessor(t, s, i, path);
    var v, v', leaf := t.nodes[s], t'.nodes[s], path[|path|-1];
    var q := t.nodes[leaf].keys[0];
    assert KeyOK(t, leaf, 0) && KidOK(t, s, i + 1);
    SuccessorInRange(t, s, i, path, 0);
    forall k | 0 <= k < |v'.keys| ensures KeyOK(t', s, k) { assert KeyOK(t, s, k) && KeyOK(t, s, i); }
    forall k | 0 <= k < |v'.kids| ensures KidOK(t', s, k) {
      assert KidOK(t, s, k);
      assert path[0] in path;
    }
  }

  lemma TakeOther(t: Tree, s: Ref, i: nat, path: seq<Ref>, id: Ref)
    requires CanTake(t, s, i, path) && id in t.nodes && NodeOK(t, id) && id !in path && id != s && Injective(t.contents)
    ensures NodeOK(TakeSuccessor(t, s, i, path), id)
  {
    var t' := TakeSuccessor(t, s, i, path);
    var leaf := path[|path|-1];
    assert leaf in path;
    assert KeyOK(t, leaf, 0) && KeyOK(t, s, i);
    forall k | 0 <= k < |t.nodes[id].keys|
      ensures t.nodes[id].hs[k] != t.nodes[leaf].hs[0] && t.nodes[id].keys[k] != t.nodes[s].keys[i]
    {
      assert KeyOK(t, id, k);
    }
    if t.nodes[id].level > 0 {
      forall k | 0 <= k < |t.nodes[id].kids| ensures KidFrame(t, t', t.nodes[id].kids[k]) { assert KidOK(t, id, k); }
    }
    NodeFrame(t, t', id);
  }

  lemma TakePath(t: Tree, s: Ref, i: nat, path: seq<Ref>, a: nat)
    requires CanTake(t, s, i, path) && a < |path| && NodeOK(t, path[a]) && Injective(t.contents)
    ensures NodeOK(TakeSuccessor(t, s, i, path), path[a])
  {
    var t' := TakeSuccessor(t, s, i, path);
    var id, leaf := path[a], path[|path|-1];
    var v, v' := t.nodes[id], t'.nodes[id];
    var q := t.nodes[leaf].keys[0];
    assert KeyOK(t, leaf, 0) && KeyOK(t, s, i) && id in path;
    if a == |path| - 1 {
      forall k | 0 <= k < |v'.keys| ensures KeyOK(t', id, k) { assert KeyOK(t, id, k + 1); }
    } else {
      SuccessorInRange(t, s, i, path, a + 1);
      assert KidOK(t, id, 0);
      assert forall k :: 0 <= k < |v.keys| ==> q < v.keys[k];
      forall k | 0 <= k < |v'.keys| ensures KeyOK(t', id, k) { assert KeyOK(t, id, k); }
      forall k | 0 <= k < |v'.kids| ensures KidOK(t', id, k) {
        assert KidOK(t, id, k);
        assert path[a+1] in path;
      }
    }
  }

  lemma TakeStored(t: Tree, s: Ref, i: nat, path: seq<Ref>, x: int)
    requires CanTake(t, s, i, path) && x in t.contents && Stored(t, x) && x != t.nodes[s].keys[i]
             && Injective(t.contents)
    ensures Stored(TakeSuccessor(t, s, i, path), x)
  {
    var t' := TakeSuccessor(t, s, i, path);
    var leaf := path[|path|-1];
    assert KeyOK(t, leaf, 0);
    var q := t.nodes[leaf].keys[0];
    var h := t.contents[x];
    if x == q {
      assert t'.nodes[s].keys[i] == q && t'.nodes[s].hs[i] == h;
    } else {
      var y := t.hpar[h];
      var k :| 0 <= k < |t.nodes[y].keys| == |t.nodes[y].hs| && t.nodes[y].keys[k] == x && t.nodes[y].hs[k] == h;
      var k' := if y == leaf then k - 1 else k;
      assert t'.nodes[y].keys[k'] == x && t'.nodes[y].hs[k'] == h;
    }
  }

  lemma TakeAll(t: Tree, s: Ref, i: nat, path: seq<Ref>)
    requires CanTake(t, s, i, path) && AllStored(t) && Injective(t.contents)
    ensures AllNodes(TakeSuccessor(t, s, i, path)) && AllStored(TakeSuccessor(t, s, i, path))
  {
    var t' := TakeSuccessor(t, s, i, path);
    TakeNode(t, s, i, path);
    forall id | id in t'.nodes && id != s ensures NodeOK(t', id) {
      if id in path {
        var a :| 0 <= a < |path| && path[a] == id;
        TakePath(t, s, i, path, a);
      } else {
        TakeOther(t, s, i, path, id);
      }
    }
    forall x | x in t'.contents ensures Stored(t', x) { TakeStored(t, s, i, path, x); }
  }

  lemma TakeUp(t: Tree, s: Ref, i: nat, path: seq<Ref>)
    requires LeftPath(t, s, i, path) && i < |t.nodes[s].keys| == |t.nodes[s].hs|
    requires var lv := t.nodes[path[|path|-1]]; lv.level == 0 && 0 < |lv.keys| == |lv.hs| && |lv.kids| > 0
    requires AllUp(t, Null)
    ensures AllUp(TakeSuccessor(t, s, i, path), Null)
  {
    var t' := TakeSuccessor(t, s, i, path);
    forall id | id in t'.nodes && id != Null ensures UpOK(t', id) { assert UpOK(t, id); }
  }

  lemma TakeRoot(t: Tree, s: Ref, i: nat, path: seq<Ref>)
    requires LeftPath(t, s, i, path) && i < |t.nodes[s].keys| == |t.nodes[s].hs|
    requires var lv := t.nodes[path[|path|-1]]; 0 < |lv.keys| == |lv.hs| && |lv.kids| > 0
    requires RootOK(t, Null)
    ensures RootOK(TakeSuccessor(t, s, i, path), Null)
  {
  }

  /** Replacing an inner entry by its successor keeps the structure and takes out exactly it. */
  lemma TakeSuccessorStruct(t: Tree, s: Ref, i: nat, path: seq<Ref>)
    requires Struct(t, Null) && CanTake(t, s, i, path)
    ensures Struct(TakeSuccessor(t, s, i, path), Null)
  {
    var t' := TakeSuccessor(t, s, i, path);
    TakeAll(t, s, i, path);
    TakeUp(t, s, i, path);
    TakeRoot(t, s, i, path);
  }

  // ---------------------------------------------------------------- searching

  lemma KidsApart(t: Tree, p: Ref, i: nat, j: nat, x: int)
    requires p in t.nodes && NodeOK(t, p) && i < |t.nodes[p].kids| && j < |t.nodes[p].kids|
    requires KidOK(t, p, i) && KidOK(t, p, j) && x in t.nodes[t.nodes[p].kids[i]].rng
             && x in t.nodes[t.nodes[p].kids[j]].rng
    ensures i == j
  {
  }

  /** Two nodes of one level that admit a common value are the same node. */
  lemma {:induction false} SameNode(t: Tree, a: Ref, b: Ref, x: int)
    requires Struct(t, Null) && a in t.nodes && b in t.nodes && t.nodes[a].level == t.nodes[b].level
    requires x in t.nodes[a].rng && x in t.nodes[b].rng
    ensures a == b
    decreases t.nodes[t.root].level - t.nodes[a].level
  {
    if a != t.root && b != t.root {
      assert UpOK(t, a) && UpOK(t, b);
      var p, q := t.nodes[a].parent, t.nodes[b].parent;
      var i :| 0 <= i < |t.nodes[p].kids| && t.nodes[p].kids[i] == a;
      var j :| 0 <= j < |t.nodes[q].kids| && t.nodes[q].kids[j] == b;
      assert NodeOK(t, p) && NodeOK(t, q) && KidOK(t, p, i) && KidOK(t, q, j);
      SameNode(t, p, q, x);
      KidsApart(t, p, i, j, x);
    }
  }

  /** A stored value that `a` admits is a key of `a`, or is admitted by one of its kids. */
  lemma {:induction false} KeyBelow(t: Tree, a: Ref, b: Ref, x: int)
    requires Struct(t, Null) && a in t.nodes && b in t.nodes && x in t.nodes[a].rng && x in t.nodes[b].rng
    requires t.nodes[b].level < t.nodes[a].level
    ensures exists k ::
              0 <= k < |t.nodes[a].kids| && t.nodes[a].kids[k] in t.nodes && x in t.nodes[t.nodes[a].kids[k]].rng
    decreases t.nodes[a].level - t.nodes[b].level
  {
    assert UpOK(t, b);
    var q := t.nodes[b].parent;
    if b != t.root {
      var j :| 0 <= j < |t.nodes[q].kids| && t.nodes[q].kids[j] == b;
      assert NodeOK(t, q) && KidOK(t, q, j);
      if t.nodes[q].level == t.nodes[a].level {
        SameNode(t, a, q, x);
      } else {
        KeyBelow(t, a, q, x);
      }
    }
  }
}
