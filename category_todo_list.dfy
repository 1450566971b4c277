/**
  The day's todo list, grouped by category: a left-to-right reduce that
  builds a dictionary of category -> todos (keys in insertion order), and the
  rendering that shows an empty-state message when there are no todos.
*/
module CategoryTodoList {
  import opened Wrappers

  datatype Todo = Todo(id: string, text: string, completed: bool, category: string, time: Option<string>)

  /** The todos of category `c`, in input order. */
  function InCategory(todos: seq<Todo>, c: string): (r: seq<Todo>)
    ensures |r| <= |todos|
    ensures forall i :: 0 <= i < |r| ==> r[i].category == c
  {
    if todos == [] then []
    else
      var last := todos[|todos| - 1];
      InCategory(todos[..|todos| - 1], c) + (if last.category == c then [last] else [])
  }

  /**
    Grouping splits over concatenation: the group of `a + b` is the group of
    `a` followed by the group of `b`. So todos that come earlier in the input
    come earlier in their group, as `push` appends them.
  */
  lemma {:induction false} InCategoryAppend(a: seq<Todo>, b: seq<Todo>, c: string)
    ensures InCategory(a + b, c) == InCategory(a, c) + InCategory(b, c)
  {
    if b == [] {
      assert a + b == a;
    } else {
      var n := |b|;
      assert (a + b)[..|a + b| - 1] == a + b[..n - 1];
      assert (a + b)[|a + b| - 1] == b[n - 1];
      InCategoryAppend(a, b[..n - 1], c);
    }
  }

  /** The distinct categories of `todos`, in order of first appearance. */
  function Categories(todos: seq<Todo>): (r: seq<string>)
    ensures forall i, j :: 0 <= i < j < |r| ==> r[i] != r[j]
    ensures forall c :: c in r <==> InCategory(todos, c) != []
  {
    if todos == [] then []
    else
      var prev := Categories(todos[..|todos| - 1]);
      var c := todos[|todos| - 1].category;
      if c in prev then prev else prev + [c]
  }

  /**
    The category order only ever grows at its end: the categories met in the
    first `k` todos come first, in the same order. So sections appear in the
    order in which their categories first occur.
  */
  lemma {:induction false} CategoriesExtendPrefix(todos: seq<Todo>, k: nat)
    requires k <= |todos|
    ensures Categories(todos[..k]) <= Categories(todos)
  {
    var n := |todos|;
    if k < n {
      var p := todos[..n - 1];
      assert p[..k] == todos[..k];
      CategoriesExtendPrefix(p, k);
      CategoriesStep(todos);
      PrefixTransitive(Categories(todos[..k]), Categories(p), Categories(todos));
    } else {
      assert todos[..k] == todos;
    }
  }

  /** One more todo can only add a category at the end. */
  lemma CategoriesStep(todos: seq<Todo>)
    requires todos != []
    ensures Categories(todos[..|todos| - 1]) <= Categories(todos)
  {
  }

  lemma PrefixTransitive(a: seq<string>, b: seq<string>, c: seq<string>)
    requires a <= b && b <= c
    ensures a <= c
  {
    assert a == b[..|a|] && b == c[..|b|];
    assert c[..|b|][..|a|] == c[..|a|];
  }

  /** Every todo is in the group of its own category. */
  lemma {:induction false} TodoInOwnGroup(todos: seq<Todo>, i: nat)
    requires i < |todos|
    ensures todos[i] in InCategory(todos, todos[i].category)
    ensures todos[i].category in Categories(todos)
  {
    var n := |todos|;
    var p, last, c := todos[..n - 1], todos[n - 1], todos[i].category;
    assert InCategory(todos, c) == InCategory(p, c) + (if last.category == c then [last] else []);
    if i < n - 1 {
      assert p[i] == todos[i];
      TodoInOwnGroup(p, i);
      assert todos[i] in InCategory(p, c);
    } else {
      assert last == todos[i];
    }
    assert InCategory(todos, c) != [];
  }

  /** The sizes of the groups, taken over the categories `cs`. */
  function GroupSizes(todos: seq<Todo>, cs: seq<string>): nat
  {
    if cs == [] then 0 else |InCategory(todos, cs[0])| + GroupSizes(todos, cs[1..])
  }

  lemma {:induction false} GroupSizesAppendCategory(todos: seq<Todo>, cs: seq<string>, c: string)
    ensures GroupSizes(todos, cs + [c]) == GroupSizes(todos, cs) + |InCategory(todos, c)|
  {
    if cs != [] {
      assert (cs + [c])[1..] == cs[1..] + [c];
      GroupSizesAppendCategory(todos, cs[1..], c);
    }
  }

  lemma {:induction false} GroupSizesAppendTodo(todos: seq<Todo>, t: Todo, cs: seq<string>)
    requires forall i, j :: 0 <= i < j < |cs| ==> cs[i] != cs[j]
    ensures GroupSizes(todos + [t], cs) == GroupSizes(todos, cs) + (if t.category in cs then 1 else 0)
  {
    assert (todos + [t])[..|todos|] == todos;
    if cs != [] {
      GroupSizesAppendTodo(todos, t, cs[1..]);
      assert t.category in cs[1..] ==> t.category != cs[0];
      assert t.category in cs <==> t.category == cs[0] || t.category in cs[1..];
    }
  }

  /** Nothing is dropped or duplicated: the group sizes add up to the number of todos. */
  lemma {:induction false} GroupSizesSumToTotal(todos: seq<Todo>)
    ensures GroupSizes(todos, Categories(todos)) == |todos|
  {
    if todos != [] {
      var n := |todos|;
      var p, t := todos[..n - 1], todos[n - 1];
      assert todos == p + [t];
      GroupSizesSumToTotal(p);
      var cp := Categories(p);
      GroupSizesAppendTodo(p, t, cp);
      if t.category !in cp {
        GroupSizesAppendCategory(todos, cp, t.category);
        assert InCategory(p, t.category) == [];
      }
    }
  }

  /**
    `groupTodosByCategory`: the dictionary it builds, with its keys in
    insertion order. Each key maps to the todos of that category in input
    order, and the keys are the distinct categories in order of first
    appearance.
  */
  method GroupTodosByCategory(todos: seq<Todo>) returns (groups: map<string, seq<Todo>>, keys: seq<string>)
    ensures keys == Categories(todos)
    ensures forall c :: c in groups <==> c in keys
    ensures forall c :: c in groups ==> groups[c] == InCategory(todos, c) && groups[c] != []
  {
    groups, keys := map[], [];
    var i := 0;
    while i < |todos|
      invariant 0 <= i <= |todos|
      invariant keys == Categories(todos[..i])
      invariant forall c :: c in groups <==> c in keys
      invariant forall c :: c in groups ==> groups[c] == InCategory(todos[..i], c)
    {
      var todo := todos[i];
      var category := todo.category;
      assert todos[..i + 1][..i] == todos[..i];
      if category !in groups {
        groups := groups[category := []];
        keys := keys + [category];
      }
      groups := groups[category := groups[category] + [todo]];
      i := i + 1;
    }
    assert todos[..i] == todos;
  }

  datatype Section = Section(category: string, todos: seq<Todo>)

  /** What `renderTodosByCategory` shows. */
  datatype Rendered = EmptyState | Sections(sections: seq<Section>)

  /**
    The empty-state message exactly when there are no todos; otherwise one
    non-empty section per category, in order of first appearance.
  */
  function RenderTodosByCategory(todos: seq<Todo>): (r: Rendered)
    ensures r == EmptyState <==> todos == []
    ensures r.Sections? ==>
      && |r.sections| == |Categories(todos)|
      && forall i :: 0 <= i < |r.sections| ==>
           r.sections[i].category == Categories(todos)[i]
           && r.sections[i].todos == InCategory(todos, r.sections[i].category)
           && r.sections[i].todos != []
  {
    if |todos| == 0 then EmptyState
    else
      var cs := Categories(todos);
      Sections(seq(|cs|, i requires 0 <= i < |cs| => Section(cs[i], InCategory(todos, cs[i]))))
  }
}
