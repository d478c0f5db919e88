/** Collector names joined with '+', and the hostname priority read back from them
    (discovery/reconcile.py). */
module SourceNames {
  import opened Basics

  function AppendChar(parts: seq<string>, c: char): seq<string>
    requires |parts| >= 1
  {
    if c == '+' then parts + [""] else parts[..|parts| - 1] + [parts[|parts| - 1] + [c]]
  }

  /** `source.split("+")` */
  function Split(s: string): (parts: seq<string>)
    ensures |parts| >= 1
  {
    if s == "" then [""]
    else
      AppendChar(Split(s[..|s| - 1]), s[|s| - 1])
  }

  function PartPriority(part: string): int {
    if part == "unifi_client" || part == "unifi_device" then 2
    else if part == "nmap" then 1
    else 0
  }

  function MaxPriority(parts: seq<string>): (p: int)
    ensures p >= 0
    ensures forall q :: q in parts ==> PartPriority(q) <= p
    ensures p == 0 || exists q :: q in parts && PartPriority(q) == p
  {
    if parts == [] then 0
    else Max(MaxPriority(parts[..|parts| - 1]), PartPriority(parts[|parts| - 1]))
  }

  /** `_source_priority` */
  function Priority(source: Text): int {
    if !Truthy(source) then 0 else MaxPriority(Split(source.value))
  }

  /** The source of a merged device: the second name is appended unless it is already a part. */
  function Join(existing: string, added: string): string {
    if added in Split(existing) then existing else existing + "+" + added
  }

  lemma SplitSnoc(s: string, c: char)
    ensures Split(s + [c]) == AppendChar(Split(s), c)
  {
    assert (s + [c])[..|s + [c]| - 1] == s;
  }

  lemma SplitOfPlus(a: string)
    ensures Split(a + "+" + "") == Split(a) + Split("")
  {
    assert a + "+" + "" == a + ['+'];
    SplitSnoc(a, '+');
  }

  /** Splitting undoes joining. */
  lemma {:induction false} SplitOfJoined(a: string, b: string)
    ensures Split(a + "+" + b) == Split(a) + Split(b)
  {
    hide Split, AppendChar;
    if b == "" {
      SplitOfPlus(a);
    } else {
      var b', c := b[..|b| - 1], b[|b| - 1];
      assert a + "+" + b == (a + "+" + b') + [c];
      SplitSnoc(a + "+" + b', c);
      SplitOfJoined(a, b');
      assert b == b' + [c];
      SplitSnoc(b', c);
      AppendCharConcat(Split(a), Split(b'), c);
    }
  }

  lemma AppendCharConcat(p: seq<string>, q: seq<string>, c: char)
    requires |q| >= 1
    ensures |p + q| >= 1 && AppendChar(p + q, c) == p + AppendChar(q, c)
  {
  }

  lemma {:induction false} MaxPriorityConcat(a: seq<string>, b: seq<string>)
    ensures MaxPriority(a + b) == Max(MaxPriority(a), MaxPriority(b))
  {
  }

  lemma {:induction false} NoPlusInParts(s: string, part: string)
    requires part in Split(s)
    ensures '+' !in part
  {
    if s != "" {
      var front := Split(s[..|s| - 1]);
      forall q | q in front ensures '+' !in q { NoPlusInParts(s[..|s| - 1], q); }
      if s[|s| - 1] != '+' {
        assert front[|front| - 1] in front;
        if part !in front[..|front| - 1] {
          assert part == front[|front| - 1] + [s[|s| - 1]];
        }
      }
    }
  }

  lemma {:induction false} SplitOfOnePart(s: string)
    requires '+' !in s
    ensures Split(s) == [s]
  {
    if s != "" {
      SplitOfOnePart(s[..|s| - 1]);
      assert s == s[..|s| - 1] + [s[|s| - 1]];
    }
  }

  /** Joining adds the parts of the second name unless that name is already a part. */
  lemma JoinedParts(a: string, b: string)
    ensures Split(Join(a, b)) == if b in Split(a) then Split(a) else Split(a) + Split(b)
  {
    hide Split;
    if b !in Split(a) {
      SplitOfJoined(a, b);
    }
  }

  /** The listed collectors, and every other name, by their priority. */
  lemma NamePriority(name: string)
    requires '+' !in name
    ensures Priority(Some(name)) == if name == "unifi_client" || name == "unifi_device" then 2
                                    else if name == "nmap" then 1 else 0
  {
    SplitOfOnePart(name);
    hide Split;
    assert [name][..0] == [];
  }

  lemma JoinPriority(a: string, b: string)
    ensures Priority(Some(Join(a, b))) == Max(Priority(Some(a)), Priority(Some(b)))
  {
    if b in Split(a) {
      NoPlusInParts(a, b);
      SplitOfOnePart(b);
      if a == "" { assert b == ""; }
    } else {
      SplitOfJoined(a, b);
      MaxPriorityConcat(Split(a), Split(b));
      SplitOfOnePart("");
    }
  }

  // How the merges nested: a device as collected, or one absorbed into another.
  datatype Merging = Collected(source: string) | Absorbed(into: Merging, from: Merging)

  function SourceOf(m: Merging): string {
    match m
    case Collected(s) => s
    case Absorbed(l, r) => Join(SourceOf(l), SourceOf(r))
  }

  function Collectors(m: Merging): set<string> {
    match m
    case Collected(s) => {s}
    case Absorbed(l, r) => Collectors(l) + Collectors(r)
  }

  /** However the merges nested, the joined name has the highest priority of the collectors. */
  lemma {:induction false} NestedMergePriority(m: Merging)
    ensures forall s :: s in Collectors(m) ==> Priority(Some(s)) <= Priority(Some(SourceOf(m)))
    ensures exists s :: s in Collectors(m) && Priority(Some(s)) == Priority(Some(SourceOf(m)))
  {
    match m
    case Collected(s) => assert s in Collectors(m);
    case Absorbed(l, r) =>
      NestedMergePriority(l);
      NestedMergePriority(r);
      JoinPriority(SourceOf(l), SourceOf(r));
  }
}
