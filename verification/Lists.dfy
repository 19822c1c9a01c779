/** The singly linked list and the queue over it (commons/collections/list.c, queue.c). */
module Lists {
  import opened Options

  class Node<T> {
    var data: T
    var next: Node?<T>

    constructor (data: T)
      ensures this.data == data && next == null
    {
      this.data := data;
      next := null;
    }
  }

  class List<T> {
    var head: Node?<T>
    var count: nat
    ghost var nodes: seq<Node<T>>
    ghost var contents: seq<T>
    ghost var repr: set<Node<T>>

    ghost predicate Valid()
      reads this, repr
    {
      && Owns(nodes, repr)
      && |nodes| == count
      && Chained(head, nodes, contents)
    }

    /** The chain from `head` visits `nodes`, which hold `contents`. */
    static ghost predicate Chained(head: Node?<T>, nodes: seq<Node<T>>, contents: seq<T>)
      reads nodes
    {
      && |nodes| == |contents|
      && head == (if nodes == [] then null else nodes[0])
      && (forall i :: 0 <= i < |nodes| ==> nodes[i].data == contents[i])
      && (forall i {:trigger nodes[i].next} :: 0 <= i < |nodes| - 1 ==> nodes[i].next == nodes[i + 1])
      && (nodes != [] ==> nodes[|nodes| - 1].next == null)
    }

    static ghost predicate Owns(s: seq<Node<T>>, repr: set<Node<T>>) {
      && (forall i, j :: 0 <= i < j < |s| ==> s[i] != s[j])
      && (forall i :: 0 <= i < |s| ==> s[i] in repr)
    }

    static lemma Others(s: seq<Node<T>>, repr: set<Node<T>>, k: nat)
      requires Owns(s, repr) && k < |s|
      ensures s[k] in repr && forall i :: 0 <= i < |s| && i != k ==> s[i] != s[k]
    {
    }

    static lemma DistinctInsert(s: seq<Node<T>>, repr: set<Node<T>>, k: nat, n: Node<T>, r: seq<Node<T>>)
      requires Owns(s, repr) && k <= |s| && n !in repr && r == s[..k] + [n] + s[k..]
      ensures Owns(r, repr + {n})
      ensures forall i :: 0 <= i < |r| ==> r[i] == if i < k then s[i] else if i == k then n else s[i - 1]
    {
    }

    static lemma DistinctRemove(s: seq<Node<T>>, repr: set<Node<T>>, k: nat, r: seq<Node<T>>)
      requires Owns(s, repr) && k < |s| && r == s[..k] + s[k + 1..]
      ensures Owns(r, repr)
      ensures forall i :: 0 <= i < |r| ==> r[i] == if i < k then s[i] else s[i + 1]
    {
    }

    constructor ()
      ensures Valid() && contents == [] && repr == {}
    {
      head := null;
      count := 0;
      nodes, contents, repr := [], [], {};
    }

    method Size() returns (n: nat)
      requires Valid()
      ensures n == |contents|
    {
      n := count;
    }

    // list_get_element
    method GetElement(index: int) returns (element: Node?<T>)
      requires Valid()
      ensures element == if 0 <= index < |nodes| then nodes[index] else null
    {
      if count > index && index >= 0 {
        var cont := 0;
        element := head;
        while cont < index
          invariant 0 <= cont <= index && element == nodes[cont]
        {
          element := element.next;
          cont := cont + 1;
        }
      } else {
        element := null;
      }
    }

    /** list_get. */
    method Get(index: int) returns (r: Option<T>)
      requires Valid()
      ensures r == if 0 <= index < |contents| then Some(contents[index]) else None
    {
      var element := GetElement(index);
      if element == null {
        r := None;
      } else {
        r := Some(element.data);
      }
    }

    /** list_add: append. */
    method Add(data: T) returns (index: nat)
      requires Valid()
      modifies this, repr
      ensures Valid() && fresh(repr - old(repr))
      ensures contents == old(contents) + [data] && index == |old(contents)|
    {
      hide Owns;
      var element := new Node(data);
      assert nodes[..count] + [element] + nodes[count..] == nodes + [element];
      DistinctInsert(nodes, repr, count, element, nodes + [element]);
      if count == 0 {
        head := element;
      } else {
        Others(nodes, repr, count - 1);
        var last := GetElement(count - 1);
        last.next := element;
      }
      nodes, contents, repr := nodes + [element], contents + [data], repr + {element};
      count := count + 1;
      index := count - 1;
    }

    /** list_add_in_index: nothing happens unless the index is that of an element already there. */
    method AddInIndex(index: int, data: T)
      requires Valid()
      modifies this, repr
      ensures Valid() && fresh(repr - old(repr))
      ensures contents == if 0 <= index < |old(contents)|
                          then old(contents)[..index] + [data] + old(contents)[index..]
                          else old(contents)
    {
      if count > index && index >= 0 {
        if index == 0 {
          AddFirst(data);
        } else {
          AddInside(index, data);
        }
      }
    }

    method AddFirst(data: T)
      requires Valid()
      modifies this
      ensures Valid() && fresh(repr - old(repr))
      ensures contents == [data] + old(contents)
    {
      hide Owns, Chained;
      var element := new Node(data);
      ghost var grown := [element] + nodes;
      Foreign(nodes, repr, element);
      element.next := head;
      Consed(head, nodes, contents, element);
      head := element;
      nodes, contents, repr := grown, [data] + contents, repr + {element};
      count := count + 1;
    }

    static lemma Foreign(s: seq<Node<T>>, repr: set<Node<T>>, n: Node<T>)
      requires Owns(s, repr) && n !in repr
      ensures n !in s && Owns([n] + s, repr + {n})
    {
    }

    static lemma Consed(head: Node?<T>, nodes: seq<Node<T>>, contents: seq<T>, element: Node<T>)
      requires Chained(head, nodes, contents) && element.next == head
      ensures Chained(element, [element] + nodes, [element.data] + contents)
    {
    }

    method AddInside(index: nat, data: T)
      requires Valid() && 0 < index < |contents|
      modifies this, repr
      ensures Valid() && fresh(repr - old(repr))
      ensures contents == old(contents)[..index] + [data] + old(contents)[index..]
    {
      hide Owns;
      var element := new Node(data);
      ghost var was, had := nodes, contents;
      ghost var grown := was[..index] + [element] + was[index..];
      DistinctInsert(was, repr, index, element, grown);
      Others(was, repr, index - 1);
      var next := GetElement(index);
      var previous := GetElement(index - 1);
      previous.next := element;
      element.next := next;
      Spliced(was, had, index, element, data);
      hide Chained;
      nodes, repr := grown, repr + {element};
      contents := had[..index] + [data] + had[index..];
      count := count + 1;
    }

    // `element` linked in between two neighbours
    static lemma Spliced(was: seq<Node<T>>, had: seq<T>, index: nat, element: Node<T>, data: T)
      requires 0 < index < |was| == |had|
      requires forall i :: 0 <= i < |was| ==> was[i].data == had[i]
      requires forall i {:trigger was[i].next} :: 0 <= i < |was| - 1 && i != index - 1 ==> was[i].next == was[i + 1]
      requires was[|was| - 1].next == null
      requires was[index - 1].next == element && element.next == was[index] && element.data == data
      ensures var grown, has := was[..index] + [element] + was[index..], had[..index] + [data] + had[index..];
              Chained(was[0], grown, has)
    {
      var grown := was[..index] + [element] + was[index..];
      forall i | 0 <= i < |grown| - 1
        ensures grown[i].next == grown[i + 1]
      {
        if i < index - 1 { assert was[i].next == was[i + 1]; }
        if i > index { assert was[i - 1].next == was[i]; }
      }
    }

    // the neighbours of position `index` linked to each other
    static lemma Cut(was: seq<Node<T>>, had: seq<T>, index: nat)
      requires 0 < index < |was| == |had|
      requires forall i :: 0 <= i < |was| ==> was[i].data == had[i]
      requires forall i {:trigger was[i].next} :: 0 <= i < |was| - 1 && i != index - 1 ==> was[i].next == was[i + 1]
      requires index + 1 < |was| ==> was[|was| - 1].next == null && was[index - 1].next == was[index + 1]
      requires index + 1 == |was| ==> was[index - 1].next == null
      ensures var shrunk, has := was[..index] + was[index + 1..], had[..index] + had[index + 1..];
              Chained(was[0], shrunk, has)
    {
      var shrunk := was[..index] + was[index + 1..];
      forall i | 0 <= i < |shrunk| - 1
        ensures shrunk[i].next == shrunk[i + 1]
      {
        if i < index - 1 { assert was[i].next == was[i + 1]; }
        if i > index - 1 { assert was[i + 1].next == was[i + 2]; }
      }
    }

    /** list_remove: out of range on a nonempty list, the C code follows a null pointer. */
    method Remove(index: int) returns (r: Option<T>)
      requires Valid()
      requires |contents| > 0 ==> 0 <= index < |contents|
      modifies this, repr
      ensures Valid() && repr == old(repr)
      ensures old(contents) == [] ==> r == None && contents == []
      ensures old(contents) != [] ==>
                r == Some(old(contents)[index]) &&
                contents == old(contents)[..index] + old(contents)[index + 1..]
    {
      hide Owns;
      if head == null {
        return None;
      }
      ghost var shrunk := nodes[..index] + nodes[index + 1..];
      DistinctRemove(nodes, repr, index, shrunk);
      var element := GetElement(index);
      r := Some(element.data);
      if index == 0 {
        head := element.next;
      } else {
        Others(nodes, repr, index - 1);
        var previous := GetElement(index - 1);
        previous.next := element.next;
        Cut(nodes, contents, index);
      }
      nodes := shrunk;
      contents := contents[..index] + contents[index + 1..];
      count := count - 1;
    }
  }

  class Queue<T> {
    const elements: List<T>

    ghost predicate Valid()
      reads this, elements, elements.repr
    {
      elements.Valid()
    }

    ghost function Contents(): seq<T>
      reads this, elements
    {
      elements.contents
    }

    constructor ()
      ensures Valid() && Contents() == [] && fresh(elements) && elements.repr == {}
    {
      elements := new List();
    }

    method Push(data: T)
      requires Valid()
      modifies elements, elements.repr
      ensures Valid() && fresh(elements.repr - old(elements.repr))
      ensures Contents() == old(Contents()) + [data]
    {
      var index := elements.Add(data);
    }

    /** queue_pop; `None` is the null pointer an empty queue gives. */
    method Pop() returns (r: Option<T>)
      requires Valid()
      modifies elements, elements.repr
      ensures Valid() && elements.repr == old(elements.repr)
      ensures old(Contents()) == [] ==> r == None && Contents() == []
      ensures old(Contents()) != [] ==> r == Some(old(Contents())[0]) && Contents() == old(Contents())[1..]
    {
      r := elements.Remove(0);
    }

    method Size() returns (n: nat)
      requires Valid()
      ensures n == |Contents()|
    {
      n := elements.Size();
    }
  }
}
