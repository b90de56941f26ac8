/**
 * Subjects: the application's own objects whose state a machine tracks.
 *
 * The runtime's class introspection is modelled by a class tag and the set of
 * classes and interfaces the object's class extends or implements.
 */
module Subjects {

  /** A class or interface name, as written: it may carry a leading `\`. */
  datatype ClassName = ClassName(name: string)

  /**
   * An object owned by the application: its class, every class and interface
   * above that class, and its property values.
   */
  datatype Subject = Subject(
    cls: ClassName,
    ancestors: set<ClassName>,
    props: map<string, string>
  )

  /** ASCII lower case; every other character is left as it is. */
  function LowerChar(ch: char): (r: char)
    ensures 'A' <= ch <= 'Z' ==> 'a' <= r <= 'z'
    ensures !('A' <= ch <= 'Z') ==> r == ch
  {
    if 'A' <= ch <= 'Z' then (ch as int + 32) as char else ch
  }

  /** A name with each ASCII letter in lower case. */
  function Lower(s: string): (r: string)
    ensures |r| == |s|
    ensures forall i :: 0 <= i < |s| ==> r[i] == LowerChar(s[i])
  {
    seq(|s|, i requires 0 <= i < |s| => LowerChar(s[i]))
  }

  /**
   * The key under which the runtime looks a class name up: one leading `\`
   * dropped, then ASCII letters folded to lower case.
   */
  function Canonical(c: ClassName): string
  {
    var n := if |c.name| > 0 && c.name[0] == '\\' then c.name[1..] else c.name;
    Lower(n)
  }

  /** Two names denote the same class. */
  predicate SameClass(a: ClassName, b: ClassName)
  {
    Canonical(a) == Canonical(b)
  }

  /** The `instanceof` relation: `s` is of class `c` or of a subtype of `c`. */
  predicate IsInstanceOf(s: Subject, c: ClassName)
  {
    SameClass(s.cls, c) || exists a :: a in s.ancestors && SameClass(a, c)
  }

  /** Folding a name to lower case does not change the class it denotes. */
  lemma LowerSameClass(c: ClassName)
    ensures SameClass(ClassName(Lower(c.name)), c)
  {
    var n := c.name;
    assert LowerChar('\\') == '\\';
    if |n| > 0 && n[0] == '\\' {
      assert Lower(n)[1..] == Lower(n[1..]);
    } else if |n| > 0 {
      assert Lower(n)[0] != '\\';
    }
    assert forall i :: 0 <= i < |Lower(n)| ==> LowerChar(Lower(n)[i]) == Lower(n)[i];
  }

  /**
   * One leading `\` does not change the class a name denotes; it does when
   * the rest of the name itself starts with `\`, since only one is dropped.
   */
  lemma LeadingBackslashSameClass(n: string)
    ensures SameClass(ClassName("\\" + n), ClassName(n)) <==> (|n| == 0 || n[0] != '\\')
  {
    var m := "\\" + n;
    assert m[1..] == n;
    if |n| > 0 && n[0] == '\\' {
      assert Lower(n)[0] == '\\';
      assert Lower(n[1..]) != Lower(n) by {
        assert |Lower(n[1..])| != |Lower(n)|;
      }
    }
  }

  /** `instanceof` is blind to case and to a leading `\` in the class name. */
  lemma InstanceOfIgnoresSpelling(s: Subject, c: ClassName)
    ensures IsInstanceOf(s, ClassName(Lower(c.name))) <==> IsInstanceOf(s, c)
    ensures |c.name| == 0 || c.name[0] != '\\' ==>
      (IsInstanceOf(s, ClassName("\\" + c.name)) <==> IsInstanceOf(s, c))
  {
    LowerSameClass(c);
    LeadingBackslashSameClass(c.name);
  }

  /**
   * An object of class `App\Order` is an instance of `app\order` and of
   * `\App\Order`, and an object of class `App\Invoice` is not an instance of
   * `App\Order`.
   */
  lemma OrderSpellings()
    ensures var order := Subject(ClassName("App\\Order"), {}, map[]);
      && IsInstanceOf(order, ClassName("app\\order"))
      && IsInstanceOf(order, ClassName("\\App\\Order"))
    ensures !IsInstanceOf(Subject(ClassName("App\\Invoice"), {}, map[]), ClassName("App\\Order"))
  {
    assert Lower("App\\Order") == Lower("app\\order") == "app\\order";
    assert "\\App\\Order"[1..] == "App\\Order";
  }
}
