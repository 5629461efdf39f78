/**
 The type floor: a lower bound on the size a font-size declaration paints, read off one
 sheet. Selectors are reduced to what the walk asks of them: which ancestor a part names,
 and which ancestors a rule covers.
 */
module TypeFloor {
  import opened Basics

  type Amount = a: real | a >= 0.0

  /** A declared size. `Unsized` is any text the walk cannot read as one. */
  datatype Expr =
    | Inherit
    | Px(amount: Amount)
    | Rem(amount: Amount)
    | Percent(amount: Amount)
    | Em(amount: Amount)
    | Clamp(low: Expr, preferred: Expr, high: Expr)
    | MinOf(first: Expr, rest: seq<Expr>)
    | MaxOf(first: Expr, rest: seq<Expr>)
    | Unsized(text: string)

  /** The ancestor each part of the selector names, the ancestors some part covers, and
      the first size the rule declares. */
  datatype Rule = Rule(parts: seq<Option<string>>, covers: set<string>, size: Option<Expr>)

  type Sheet = seq<Rule>

  const ROOT_PX := 16.0

  function Least(a: real, b: real): real {
    if a < b then a else b
  }

  function Most(a: real, b: real): real {
    if a < b then b else a
  }

  function Product(a: real, b: real): (r: real)
    ensures a >= 0.0 && b >= 0.0 ==> r >= 0.0
  {
    a * b
  }

  /** An em of a parent that may be unknown. */
  function Times(amount: real, parent: Option<real>): Option<real> {
    if parent.None? then None else Some(Product(amount, parent.value))
  }

  /** min() needs every argument; max() and the search for a parent take what they can get. */
  function LeastOfBoth(a: Option<real>, b: Option<real>): Option<real> {
    if a.Some? && b.Some? then Some(Least(a.value, b.value)) else None
  }

  function LeastOfKnown(a: Option<real>, b: Option<real>): Option<real> {
    if a.None? then b else if b.None? then a else Some(Least(a.value, b.value))
  }

  function MostOfKnown(a: Option<real>, b: Option<real>): Option<real> {
    if a.None? then b else if b.None? then a else Some(Most(a.value, b.value))
  }

  ghost function Indices(n: nat): (ks: set<nat>)
    ensures forall k :: k in ks <==> 0 <= k < n
  {
    if n == 0 then {} else Indices(n - 1) + {n - 1}
  }

  ghost function Unseen(sheet: Sheet, seen: set<nat>): set<nat> {
    Indices(|sheet|) - seen
  }

  /* ----- The governing rules of a rule's parent ----- */

  predicate Governs(sheet: Sheet, k: nat, ancestor: string, seen: set<nat>) {
    k < |sheet| && k !in seen && sheet[k].size.Some? && ancestor in sheet[k].covers
  }

  /** Rules the walk may still open: known, sized and not on the way here. */
  predicate Usable(ks: seq<nat>, sheet: Sheet, seen: set<nat>) {
    forall i :: 0 <= i < |ks| ==> ks[i] < |sheet| && ks[i] !in seen && sheet[ks[i]].size.Some?
  }

  function GoverningFrom(sheet: Sheet, ancestor: string, seen: set<nat>, k: nat): (ks: seq<nat>)
    requires k <= |sheet|
    ensures Usable(ks, sheet, seen)
    decreases |sheet| - k
  {
    if k == |sheet| then []
    else (if Governs(sheet, k, ancestor, seen) then [k] else []) + GoverningFrom(sheet, ancestor, seen, k + 1)
  }

  function Candidates(sheet: Sheet, parts: seq<Option<string>>, seen: set<nat>): (ks: seq<nat>)
    ensures Usable(ks, sheet, seen)
  {
    if parts == [] then []
    else (if parts[0].Some? then GoverningFrom(sheet, parts[0].value, seen, 0) else []) + Candidates(sheet, parts[1..], seen)
  }

  /* ----- The walk ----- */

  function Evaluate(expr: Expr, sheet: Sheet, rule: nat, seen: set<nat>): Option<real>
    requires rule < |sheet|
    decreases Unseen(sheet, seen), 2, expr
  {
    match expr
    case Inherit => ParentSize(sheet, rule, seen)
    case Px(amount) => Some(amount)
    case Rem(amount) => Some(Product(amount, ROOT_PX))
    case Percent(amount) => Some(Product(amount, ROOT_PX) / 100.0)
    case Em(amount) => Times(amount, ParentSize(sheet, rule, seen))
    case Clamp(low, preferred, high) => Evaluate(low, sheet, rule, seen)
    case MinOf(first, rest) => MinFrom(Evaluate(first, sheet, rule, seen), rest, sheet, rule, seen)
    case MaxOf(first, rest) => MaxFrom(Evaluate(first, sheet, rule, seen), rest, sheet, rule, seen)
    case Unsized(_) => None
  }

  function MinFrom(start: Option<real>, args: seq<Expr>, sheet: Sheet, rule: nat, seen: set<nat>): Option<real>
    requires rule < |sheet|
    decreases Unseen(sheet, seen), 2, args
  {
    if args == [] then start
    else MinFrom(LeastOfBoth(start, Evaluate(args[0], sheet, rule, seen)), args[1..], sheet, rule, seen)
  }

  function MaxFrom(start: Option<real>, args: seq<Expr>, sheet: Sheet, rule: nat, seen: set<nat>): Option<real>
    requires rule < |sheet|
    decreases Unseen(sheet, seen), 2, args
  {
    if args == [] then start
    else MaxFrom(MostOfKnown(start, Evaluate(args[0], sheet, rule, seen)), args[1..], sheet, rule, seen)
  }

  /** The smallest size any of the rules resolves to, each in its own context. */
  function Smallest(ks: seq<nat>, sheet: Sheet, seen: set<nat>): Option<real>
    requires Usable(ks, sheet, seen)
    decreases Unseen(sheet, seen), 0, ks
  {
    if ks == [] then None
    else
      assert ks[0] in Unseen(sheet, seen);
      LeastOfKnown(Evaluate(sheet[ks[0]].size.value, sheet, ks[0], seen + {ks[0]}), Smallest(ks[1..], sheet, seen))
  }

  /** The size of the parent, as the sheet proves it. */
  function ParentSize(sheet: Sheet, rule: nat, seen: set<nat>): Option<real>
    requires rule < |sheet|
    decreases Unseen(sheet, seen), 1
  {
    Smallest(Candidates(sheet, sheet[rule].parts, seen), sheet, seen)
  }

  /* ----- What a declaration paints ----- */

  /** What the sheet does not fix: the root size, the parent's size, and unreadable text. No
      font size is negative. */
  datatype World = World(root: Amount, parent: Amount, unsized: string -> Amount)

  function Paints(expr: Expr, w: World): Amount
    decreases expr
  {
    match expr
    case Inherit => w.parent
    case Px(amount) => amount
    case Rem(amount) => Product(amount, w.root)
    case Percent(amount) => Product(amount, w.parent) / 100.0
    case Em(amount) => Product(amount, w.parent)
    case Clamp(low, preferred, high) => Most(Paints(low, w), Least(Paints(preferred, w), Paints(high, w)))
    case MinOf(first, rest) => PaintsMin(Paints(first, w), rest, w)
    case MaxOf(first, rest) => PaintsMax(Paints(first, w), rest, w)
    case Unsized(text) => w.unsized(text)
  }

  function PaintsMin(start: Amount, args: seq<Expr>, w: World): Amount
    decreases args
  {
    if args == [] then start else PaintsMin(Least(start, Paints(args[0], w)), args[1..], w)
  }

  function PaintsMax(start: Amount, args: seq<Expr>, w: World): Amount
    decreases args
  {
    if args == [] then start else PaintsMax(Most(start, Paints(args[0], w)), args[1..], w)
  }

  /** No argument is a percentage. */
  predicate PercentFree(expr: Expr) {
    match expr
    case Percent(_) => false
    case Clamp(low, preferred, high) => PercentFree(low) && PercentFree(preferred) && PercentFree(high)
    case MinOf(first, rest) => PercentFree(first) && forall e :: e in rest ==> PercentFree(e)
    case MaxOf(first, rest) => PercentFree(first) && forall e :: e in rest ==> PercentFree(e)
    case _ => true
  }

  /** No argument depends on the parent. */
  predicate Grounded(expr: Expr) {
    match expr
    case Inherit => false
    case Em(_) => false
    case Percent(_) => false
    case Clamp(low, preferred, high) => Grounded(low) && Grounded(preferred) && Grounded(high)
    case MinOf(first, rest) => Grounded(first) && forall e :: e in rest ==> Grounded(e)
    case MaxOf(first, rest) => Grounded(first) && forall e :: e in rest ==> Grounded(e)
    case _ => true
  }

  ghost predicate Below(bound: Option<real>, size: real) {
    bound.Some? ==> bound.value <= size
  }

  /* ----- The walk never overstates ----- */

  lemma Positive(a: real, b: real)
    requires a > 0.0 && b > 0.0
    ensures Product(a, b) > 0.0
  {
  }

  lemma Spread(a: real, b: real, c: real)
    ensures Product(a, b - c) == Product(a, b) - Product(a, c)
  {
  }

  lemma ScaledStrictly(amount: real, small: real, large: real)
    requires amount > 0.0 && small < large
    ensures Product(amount, small) < Product(amount, large)
  {
    hide Product;
    Positive(amount, large - small);
    Spread(amount, large, small);
  }

  lemma Scaled(amount: real, small: real, large: real)
    requires amount >= 0.0 && small <= large
    ensures Product(amount, small) <= Product(amount, large)
  {
    if amount > 0.0 && small < large { ScaledStrictly(amount, small, large); }
  }

  /** A positive factor keeps order both ways. */
  lemma ScaledBothWays(amount: real, a: real, b: real)
    requires amount > 0.0
    ensures Product(amount, a) <= Product(amount, b) <==> a <= b
  {
    if a <= b { Scaled(amount, a, b); } else { ScaledStrictly(amount, b, a); }
  }

  lemma ScaledParent(amount: real, proved: Option<real>, parent: real)
    requires amount >= 0.0 && Below(proved, parent)
    ensures Below(Times(amount, proved), Product(amount, parent))
  {
    if proved.Some? { Scaled(amount, proved.value, parent); }
  }

  /** The root is at its default or larger. An expression that depends on the parent needs a
      parent no smaller than the sheet proves, and a percentage one no smaller than the root's default. */
  ghost predicate Fair(expr: Expr, sheet: Sheet, rule: nat, seen: set<nat>, w: World)
    requires rule < |sheet|
  {
    && w.root >= ROOT_PX
    && (Grounded(expr) || ((PercentFree(expr) || w.parent >= ROOT_PX) && Below(ParentSize(sheet, rule, seen), w.parent)))
  }

  /** The size the walk reports is never above what the declaration paints, whatever the
      arguments it could not read turn out to be. */
  lemma {:induction false} WalkIsLowerBound(expr: Expr, sheet: Sheet, rule: nat, seen: set<nat>, w: World)
    requires rule < |sheet| && Fair(expr, sheet, rule, seen, w)
    ensures Below(Evaluate(expr, sheet, rule, seen), Paints(expr, w))
    decreases expr
  {
    hide ParentSize, Candidates, Product;
    match expr
    case Rem(amount) => Scaled(amount, ROOT_PX, w.root);
    case Percent(amount) => Scaled(amount, ROOT_PX, w.parent);
    case Em(amount) => ScaledParent(amount, ParentSize(sheet, rule, seen), w.parent);
    case Clamp(low, preferred, high) => WalkIsLowerBound(low, sheet, rule, seen, w);
    case MinOf(first, rest) =>
      WalkIsLowerBound(first, sheet, rule, seen, w);
      MinIsLowerBound(Evaluate(first, sheet, rule, seen), Paints(first, w), rest, sheet, rule, seen, w);
    case MaxOf(first, rest) =>
      WalkIsLowerBound(first, sheet, rule, seen, w);
      MaxIsLowerBound(Evaluate(first, sheet, rule, seen), Paints(first, w), rest, sheet, rule, seen, w);
    case _ =>
  }

  lemma {:induction false} MinIsLowerBound(start: Option<real>, size: Amount, args: seq<Expr>, sheet: Sheet, rule: nat, seen: set<nat>, w: World)
    requires rule < |sheet| && Below(start, size) && forall e :: e in args ==> Fair(e, sheet, rule, seen, w)
    ensures Below(MinFrom(start, args, sheet, rule, seen), PaintsMin(size, args, w))
    decreases args
  {
    if args != [] {
      WalkIsLowerBound(args[0], sheet, rule, seen, w);
      MinIsLowerBound(LeastOfBoth(start, Evaluate(args[0], sheet, rule, seen)), Least(size, Paints(args[0], w)), args[1..], sheet, rule, seen, w);
    }
  }

  lemma {:induction false} MaxIsLowerBound(start: Option<real>, size: Amount, args: seq<Expr>, sheet: Sheet, rule: nat, seen: set<nat>, w: World)
    requires rule < |sheet| && Below(start, size) && forall e :: e in args ==> Fair(e, sheet, rule, seen, w)
    ensures Below(MaxFrom(start, args, sheet, rule, seen), PaintsMax(size, args, w))
    decreases args
  {
    if args != [] {
      WalkIsLowerBound(args[0], sheet, rule, seen, w);
      MaxIsLowerBound(MostOfKnown(start, Evaluate(args[0], sheet, rule, seen)), Most(size, Paints(args[0], w)), args[1..], sheet, rule, seen, w);
    }
  }

  /** A percentage scales with the parent, which the walk takes to be the root's default:
      the report is a lower bound exactly when the parent is no smaller, or the amount is nothing. */
  lemma PercentIsLowerBoundWhen(amount: Amount, sheet: Sheet, rule: nat, seen: set<nat>, w: World)
    requires rule < |sheet|
    ensures Below(Evaluate(Percent(amount), sheet, rule, seen), Paints(Percent(amount), w)) <==> amount == 0.0 || w.parent >= ROOT_PX
  {
    if amount > 0.0 {
      hide Product;
      ScaledBothWays(amount, ROOT_PX, w.parent);
    }
  }

  /** Eighty percent inside a ten-pixel parent is reported as 12.8 and paints 8. */
  lemma PercentOverstates(sheet: Sheet, rule: nat, seen: set<nat>, unsized: string -> Amount)
    requires rule < |sheet|
    ensures var w := World(ROOT_PX, 10.0, unsized);
            Evaluate(Percent(80.0), sheet, rule, seen) == Some(12.8) && Paints(Percent(80.0), w) == 8.0
  {
  }

  /* ----- Which rules the walk consults ----- */

  /** Some part of the selector names an ancestor the sized rule `k` covers. */
  ghost predicate IsGoverning(sheet: Sheet, parts: seq<Option<string>>, k: nat)
    ensures IsGoverning(sheet, parts, k) ==> k < |sheet| && sheet[k].size.Some?
  {
    k < |sheet| && sheet[k].size.Some? && exists i :: 0 <= i < |parts| && parts[i].Some? && parts[i].value in sheet[k].covers
  }

  lemma {:induction false} GoverningAre(sheet: Sheet, ancestor: string, seen: set<nat>, from: nat, k: nat)
    requires from <= |sheet|
    ensures k in GoverningFrom(sheet, ancestor, seen, from) <==> from <= k && Governs(sheet, k, ancestor, seen)
    decreases |sheet| - from
  {
    hide Usable;
    if from < |sheet| {
      GoverningAre(sheet, ancestor, seen, from + 1, k);
      var rest := GoverningFrom(sheet, ancestor, seen, from + 1);
      assert k in [from] + rest <==> k == from || k in rest;
      assert [] + rest == rest;
    }
  }

  /** The walk consults every governing rule except those already on the way. */
  lemma {:induction false} CandidatesAre(sheet: Sheet, parts: seq<Option<string>>, seen: set<nat>, k: nat)
    ensures k in Candidates(sheet, parts, seen) <==> IsGoverning(sheet, parts, k) && k !in seen
    decreases parts
  {
    if parts != [] {
      CandidatesAre(sheet, parts[1..], seen, k);
      if parts[0].Some? { GoverningAre(sheet, parts[0].value, seen, 0, k); }
      if IsGoverning(sheet, parts[1..], k) {
        var i :| 0 <= i < |parts[1..]| && parts[1..][i].Some? && parts[1..][i].value in sheet[k].covers;
        assert parts[i + 1] == parts[1..][i];
      }
      if IsGoverning(sheet, parts, k) && !IsGoverning(sheet, parts[1..], k) {
        var i :| 0 <= i < |parts| && parts[i].Some? && parts[i].value in sheet[k].covers;
        assert i == 0 || parts[1..][i - 1] == parts[i];
      }
    }
  }

  lemma {:induction false} SmallestIsLeast(ks: seq<nat>, sheet: Sheet, seen: set<nat>, k: nat)
    requires Usable(ks, sheet, seen) && k in ks && k < |sheet| && sheet[k].size.Some?
    requires Evaluate(sheet[k].size.value, sheet, k, seen + {k}).Some?
    ensures Smallest(ks, sheet, seen).Some?
    ensures Smallest(ks, sheet, seen).value <= Evaluate(sheet[k].size.value, sheet, k, seen + {k}).value
    decreases ks
  {
    if ks[0] != k { SmallestIsLeast(ks[1..], sheet, seen, k); }
  }

  /* ----- Down a chain of elements ----- */

  ghost function SeenUpTo(chain: seq<nat>, i: nat): set<nat>
    requires i < |chain|
  {
    if i == 0 then {chain[0]} else SeenUpTo(chain, i - 1) + {chain[i]}
  }

  /** Rules that size an element, its parent, and so on up. A rule may come again, as for an
      element nested in another of its kind. */
  ghost predicate Chain(sheet: Sheet, chain: seq<nat>) {
    && (forall i :: 0 <= i < |chain| ==> chain[i] < |sheet| && sheet[chain[i]].size.Some?)
    && (forall i :: 0 <= i < |chain| - 1 ==> IsGoverning(sheet, sheet[chain[i]].parts, chain[i + 1]))
  }

  ghost function Reported(sheet: Sheet, chain: seq<nat>, i: nat): Option<real>
    requires Chain(sheet, chain) && i < |chain|
  {
    Evaluate(sheet[chain[i]].size.value, sheet, chain[i], SeenUpTo(chain, i))
  }

  /** The size the i-th element of the chain paints, given its parent's. */
  ghost function Painted(sheet: Sheet, chain: seq<nat>, i: nat, w: World): Amount
    requires Chain(sheet, chain) && i < |chain|
    decreases |chain| - i
  {
    Paints(sheet[chain[i]].size.value, if i + 1 < |chain| then w.(parent := Painted(sheet, chain, i + 1, w)) else w)
  }

  lemma {:induction false} SeenIsBelow(chain: seq<nat>, i: nat, k: nat)
    requires i < |chain| && forall j :: 0 <= j <= i ==> chain[j] != k
    ensures k !in SeenUpTo(chain, i)
  {
    if i > 0 { SeenIsBelow(chain, i - 1, k); }
  }

  /** When no rule of the chain comes again, so that none is skipped as seen, and every one
      above the element resolves, so that none is passed over as unread, what the walk
      reports is no more than the element paints. Sizes are percentage-free and the topmost
      does not look up further. */
  lemma {:induction false} ChainIsLowerBound(sheet: Sheet, chain: seq<nat>, i: nat, w: World)
    requires Chain(sheet, chain) && i < |chain| && w.root >= ROOT_PX
    requires forall j, k :: 0 <= j < k < |chain| ==> chain[j] != chain[k]
    requires forall j :: i < j < |chain| ==> Reported(sheet, chain, j).Some?
    requires forall j :: i <= j < |chain| ==> PercentFree(sheet[chain[j]].size.value)
    requires Grounded(sheet[chain[|chain| - 1]].size.value)
    ensures Below(Reported(sheet, chain, i), Painted(sheet, chain, i, w))
    decreases |chain| - i
  {
    hide Candidates, Evaluate, Paints, IsGoverning, PercentFree, Grounded;
    var expr, seen := sheet[chain[i]].size.value, SeenUpTo(chain, i);
    if i + 1 < |chain| {
      ChainIsLowerBound(sheet, chain, i + 1, w);
      assert SeenUpTo(chain, i + 1) == seen + {chain[i + 1]};
      SeenIsBelow(chain, i, chain[i + 1]);
      CandidatesAre(sheet, sheet[chain[i]].parts, seen, chain[i + 1]);
      SmallestIsLeast(Candidates(sheet, sheet[chain[i]].parts, seen), sheet, seen, chain[i + 1]);
      WalkIsLowerBound(expr, sheet, chain[i], seen, w.(parent := Painted(sheet, chain, i + 1, w)));
    } else {
      WalkIsLowerBound(expr, sheet, chain[i], seen, w);
    }
  }

  /* ----- A parent the walk cannot read ----- */

  /** The report for an expression holds of an element whose parent rule `k` sizes. */
  ghost predicate HoldsUnder(expr: Expr, sheet: Sheet, rule: nat, seen: set<nat>, k: nat, w: World)
    requires rule < |sheet| && k < |sheet| && sheet[k].size.Some?
  {
    Below(Evaluate(expr, sheet, rule, seen), Paints(expr, w.(parent := Paints(sheet[k].size.value, w))))
  }

  /** The smallest fair world for an expression: the root at its default, unreadable text of
      no size, and a parent no larger than fairness asks. */
  function LeastWorld(expr: Expr, sheet: Sheet, rule: nat, seen: set<nat>): World
    requires rule < |sheet|
  {
    World(ROOT_PX, Most(if PercentFree(expr) then 0.0 else ROOT_PX, ParentSize(sheet, rule, seen).GetOr(0.0)), text => 0.0)
  }

  ghost predicate NoLarger(expr: Expr, a: World, b: World) {
    a.root <= b.root && (Grounded(expr) || a.parent <= b.parent) && forall text :: a.unsized(text) <= b.unsized(text)
  }

  /** A larger world never paints less. */
  lemma {:induction false} LargerPaintsNoLess(expr: Expr, a: World, b: World)
    requires NoLarger(expr, a, b)
    ensures Paints(expr, a) <= Paints(expr, b)
    decreases expr
  {
    hide Product;
    match expr
    case Rem(amount) => Scaled(amount, a.root, b.root);
    case Percent(amount) => Scaled(amount, a.parent, b.parent);
    case Em(amount) => Scaled(amount, a.parent, b.parent);
    case Clamp(low, preferred, high) =>
      LargerPaintsNoLess(low, a, b);
      LargerPaintsNoLess(preferred, a, b);
      LargerPaintsNoLess(high, a, b);
    case MinOf(first, rest) =>
      LargerPaintsNoLess(first, a, b);
      LargerMin(Paints(first, a), Paints(first, b), rest, a, b);
    case MaxOf(first, rest) =>
      LargerPaintsNoLess(first, a, b);
      LargerMax(Paints(first, a), Paints(first, b), rest, a, b);
    case _ =>
  }

  lemma {:induction false} LargerMin(small: Amount, large: Amount, args: seq<Expr>, a: World, b: World)
    requires small <= large && forall e :: e in args ==> NoLarger(e, a, b)
    ensures PaintsMin(small, args, a) <= PaintsMin(large, args, b)
    decreases args
  {
    if args != [] {
      LargerPaintsNoLess(args[0], a, b);
      LargerMin(Least(small, Paints(args[0], a)), Least(large, Paints(args[0], b)), args[1..], a, b);
    }
  }

  lemma {:induction false} LargerMax(small: Amount, large: Amount, args: seq<Expr>, a: World, b: World)
    requires small <= large && forall e :: e in args ==> NoLarger(e, a, b)
    ensures PaintsMax(small, args, a) <= PaintsMax(large, args, b)
    decreases args
  {
    if args != [] {
      LargerPaintsNoLess(args[0], a, b);
      LargerMax(Most(small, Paints(args[0], a)), Most(large, Paints(args[0], b)), args[1..], a, b);
    }
  }

  lemma LeastIsFair(expr: Expr, sheet: Sheet, rule: nat, seen: set<nat>, w: World)
    requires rule < |sheet|
    ensures var least := LeastWorld(expr, sheet, rule, seen);
            Fair(expr, sheet, rule, seen, least) && (Fair(expr, sheet, rule, seen, w) ==> NoLarger(expr, least, w))
  {
    hide ParentSize, PercentFree, Grounded;
  }

  /** The least rule `k` can paint as a parent, in worlds fair to it. */
  function LeastPainted(sheet: Sheet, k: nat, seen: set<nat>): Amount
    requires k < |sheet| && sheet[k].size.Some?
  {
    Paints(sheet[k].size.value, LeastWorld(sheet[k].size.value, sheet, k, seen + {k}))
  }

  /** A rule the walk consults for the parent and cannot read. */
  ghost predicate Unread(sheet: Sheet, rule: nat, seen: set<nat>, k: nat)
    requires rule < |sheet|
  {
    IsGoverning(sheet, sheet[rule].parts, k) && k !in seen && Evaluate(sheet[k].size.value, sheet, k, seen + {k}).None?
  }

  /** The report for an em holds under rule `k` in every world fair to that rule. */
  ghost predicate AlwaysHolds(amount: Amount, sheet: Sheet, rule: nat, seen: set<nat>, k: nat)
    requires rule < |sheet| && k < |sheet| && sheet[k].size.Some?
  {
    forall w: World :: Fair(sheet[k].size.value, sheet, k, seen + {k}, w) ==> HoldsUnder(Em(amount), sheet, rule, seen, k, w)
  }

  lemma HoldsUnderIs(amount: Amount, sheet: Sheet, rule: nat, seen: set<nat>, k: nat, w: World)
    requires rule < |sheet| && k < |sheet| && sheet[k].size.Some? && amount > 0.0
    ensures HoldsUnder(Em(amount), sheet, rule, seen, k, w) <==> Below(ParentSize(sheet, rule, seen), Paints(sheet[k].size.value, w))
  {
    hide ParentSize, Product;
    var proved := ParentSize(sheet, rule, seen);
    if proved.Some? { ScaledBothWays(amount, proved.value, Paints(sheet[k].size.value, w)); }
  }

  lemma ParentAtMost(sheet: Sheet, rule: nat, seen: set<nat>, k: nat)
    requires rule < |sheet| && IsGoverning(sheet, sheet[rule].parts, k) && k !in seen
    requires Evaluate(sheet[k].size.value, sheet, k, seen + {k}).Some?
    ensures Below(ParentSize(sheet, rule, seen), Evaluate(sheet[k].size.value, sheet, k, seen + {k}).value)
  {
    hide Evaluate, Candidates, IsGoverning;
    CandidatesAre(sheet, sheet[rule].parts, seen, k);
    SmallestIsLeast(Candidates(sheet, sheet[rule].parts, seen), sheet, seen, k);
  }

  /** Under a rule that is read, and a positive em, the report always holds. */
  lemma ReadParentHolds(amount: Amount, sheet: Sheet, rule: nat, seen: set<nat>, k: nat)
    requires rule < |sheet| && IsGoverning(sheet, sheet[rule].parts, k) && k !in seen && !Unread(sheet, rule, seen, k) && amount > 0.0
    ensures AlwaysHolds(amount, sheet, rule, seen, k)
  {
    hide IsGoverning, ParentSize, HoldsUnder, Evaluate, Paints, Fair;
    var expr := sheet[k].size.value;
    ParentAtMost(sheet, rule, seen, k);
    forall w: World | Fair(expr, sheet, k, seen + {k}, w) ensures HoldsUnder(Em(amount), sheet, rule, seen, k, w) {
      WalkIsLowerBound(expr, sheet, k, seen + {k}, w);
      HoldsUnderIs(amount, sheet, rule, seen, k, w);
    }
  }

  /** Under any rule it holds in every fair world exactly when it holds in the smallest. */
  lemma HoldsWhenLeast(amount: Amount, sheet: Sheet, rule: nat, seen: set<nat>, k: nat)
    requires rule < |sheet| && k < |sheet| && sheet[k].size.Some? && amount > 0.0
    ensures AlwaysHolds(amount, sheet, rule, seen, k) <==> Below(ParentSize(sheet, rule, seen), LeastPainted(sheet, k, seen))
  {
    hide ParentSize, HoldsUnder, Paints, Fair, LeastWorld;
    var expr, within := sheet[k].size.value, seen + {k};
    var least := LeastWorld(expr, sheet, k, within);
    LeastIsFair(expr, sheet, k, within, least);
    HoldsUnderIs(amount, sheet, rule, seen, k, least);
    forall w: World | Fair(expr, sheet, k, within, w)
      ensures Paints(expr, least) <= Paints(expr, w)
      ensures HoldsUnder(Em(amount), sheet, rule, seen, k, w) <==> Below(ParentSize(sheet, rule, seen), Paints(expr, w))
    {
      LeastIsFair(expr, sheet, k, within, w);
      LargerPaintsNoLess(expr, least, w);
      HoldsUnderIs(amount, sheet, rule, seen, k, w);
    }
  }

  /** The report for an em holds, in every fair world and under every rule that may size the
      parent, exactly when the em is nothing or no unread rule can paint below the proved
      parent. */
  lemma EmIsLowerBoundWhen(amount: Amount, sheet: Sheet, rule: nat, seen: set<nat>)
    requires rule < |sheet|
    ensures (forall k: nat :: IsGoverning(sheet, sheet[rule].parts, k) && k !in seen ==> AlwaysHolds(amount, sheet, rule, seen, k))
       <==> amount == 0.0 || forall k: nat :: Unread(sheet, rule, seen, k) ==> Below(ParentSize(sheet, rule, seen), LeastPainted(sheet, k, seen))
  {
    hide IsGoverning, AlwaysHolds, ParentSize, LeastPainted, Evaluate;
    forall k: nat | IsGoverning(sheet, sheet[rule].parts, k) && k !in seen
      ensures AlwaysHolds(amount, sheet, rule, seen, k)
         <==> amount == 0.0 || (Unread(sheet, rule, seen, k) ==> Below(ParentSize(sheet, rule, seen), LeastPainted(sheet, k, seen)))
    {
      if amount == 0.0 {
        NothingHolds(sheet, rule, seen, k);
      } else if Unread(sheet, rule, seen, k) {
        HoldsWhenLeast(amount, sheet, rule, seen, k);
      } else {
        ReadParentHolds(amount, sheet, rule, seen, k);
      }
    }
  }

  lemma NothingHolds(sheet: Sheet, rule: nat, seen: set<nat>, k: nat)
    requires rule < |sheet| && k < |sheet| && sheet[k].size.Some?
    ensures AlwaysHolds(0.0, sheet, rule, seen, k)
  {
    hide ParentSize;
  }

  /** Text the walk cannot read may be of no size: over a positive proved parent the report
      for a positive em then overstates. */
  lemma UnreadParentOverstates(amount: Amount, sheet: Sheet, rule: nat, seen: set<nat>, k: nat)
    requires rule < |sheet| && amount > 0.0 && ParentSize(sheet, rule, seen).Some? && ParentSize(sheet, rule, seen).value > 0.0
    requires IsGoverning(sheet, sheet[rule].parts, k) && k !in seen && sheet[k].size.value.Unsized?
    ensures Unread(sheet, rule, seen, k) && LeastPainted(sheet, k, seen) == 0.0 && !AlwaysHolds(amount, sheet, rule, seen, k)
  {
    hide ParentSize, IsGoverning, AlwaysHolds;
    HoldsWhenLeast(amount, sheet, rule, seen, k);
  }

  /* ----- A rule that is its own ancestor ----- */

  /** The size at the bottom of `n` nested elements that each scale by `amount`. */
  function Nested(amount: real, n: nat, size: real): real {
    if n == 0 then size else Product(amount, Nested(amount, n - 1, size))
  }

  /** `n` elements of one rule inside an element of another. */
  function Nest(rule: nat, n: nat, k: nat): (chain: seq<nat>)
    ensures |chain| == n + 1
  {
    seq(n, i => rule) + [k]
  }

  lemma {:induction false} NestPaints(sheet: Sheet, rule: nat, amount: Amount, n: nat, k: nat, i: nat, w: World)
    requires Chain(sheet, Nest(rule, n, k)) && i <= n && rule < |sheet| && sheet[rule].size == Some(Em(amount))
    requires k < |sheet| && sheet[k].size.Some? && Grounded(sheet[k].size.value)
    ensures Painted(sheet, Nest(rule, n, k), i, w) == Nested(amount, n - i, Paints(sheet[k].size.value, w))
    decreases n - i
  {
    hide Product, Chain;
    var chain := Nest(rule, n, k);
    if i < n {
      assert chain[i] == rule;
      NestPaints(sheet, rule, amount, n, k, i + 1, w);
    } else {
      assert chain[n] == k;
    }
  }

  lemma Grows(amount: real, size: real)
    requires amount >= 1.0 && size >= 0.0
    ensures Product(amount, size) >= size
  {
    Scaled(size, 1.0, amount);
  }

  lemma {:induction false} NestedGrows(amount: real, n: nat, size: real)
    requires amount >= 1.0 && size >= 0.0
    ensures Nested(amount, n, size) >= size
  {
    if n > 0 {
      NestedGrows(amount, n - 1, size);
      Grows(amount, Nested(amount, n - 1, size));
    }
  }

  /** An em rule that governs its own parent, over a rule of `size` pixels: to any depth the
      walk reports one step, having skipped the rule itself. */
  lemma NestReport(sheet: Sheet, rule: nat, amount: Amount, k: nat, size: Amount, n: nat, w: World)
    requires rule < |sheet| && sheet[rule].size == Some(Em(amount)) && IsGoverning(sheet, sheet[rule].parts, rule)
    requires IsGoverning(sheet, sheet[rule].parts, k) && sheet[k].size == Some(Px(size))
    requires ParentSize(sheet, rule, {rule}) == Some(size) && n >= 1
    ensures Chain(sheet, Nest(rule, n, k)) && Reported(sheet, Nest(rule, n, k), 0) == Times(amount, Some(size))
    ensures Painted(sheet, Nest(rule, n, k), 0, w) == Nested(amount, n, size)
  {
    hide IsGoverning, ParentSize, Nest, Chain;
    NestIs(sheet, rule, n, k);
    NestPaints(sheet, rule, amount, n, k, 0, w);
  }

  lemma NestedHoldsWhen(amount: Amount, size: Amount)
    ensures amount >= 1.0 || amount == 0.0 || size == 0.0 ==> forall n: nat :: n >= 1 ==> Product(amount, size) <= Nested(amount, n, size)
    ensures !(amount >= 1.0 || amount == 0.0 || size == 0.0) ==> Product(amount, size) > Nested(amount, 2, size)
  {
    if amount >= 1.0 {
      forall n: nat | n >= 1 ensures Product(amount, size) <= Nested(amount, n, size) {
        NestedGrows(amount, n - 1, size);
        Scaled(amount, size, Nested(amount, n - 1, size));
      }
    } else if amount == 0.0 || size == 0.0 {
      forall n: nat | n >= 1 ensures Nested(amount, n, size) == 0.0 { NestedNothing(amount, n, size); }
    } else {
      Shrinks(amount, size);
    }
  }

  /** Nested to any depth, the report of such a rule holds exactly when the em does not
      shrink, or there is nothing to shrink. */
  lemma SelfNestingIsLowerBoundWhen(sheet: Sheet, rule: nat, amount: Amount, k: nat, size: Amount, w: World)
    requires rule < |sheet| && sheet[rule].size == Some(Em(amount)) && IsGoverning(sheet, sheet[rule].parts, rule)
    requires IsGoverning(sheet, sheet[rule].parts, k) && sheet[k].size == Some(Px(size))
    requires ParentSize(sheet, rule, {rule}) == Some(size)
    ensures forall n: nat :: n >= 1 ==> Chain(sheet, Nest(rule, n, k))
    ensures (forall n: nat :: n >= 1 ==> Below(Reported(sheet, Nest(rule, n, k), 0), Painted(sheet, Nest(rule, n, k), 0, w)))
       <==> amount >= 1.0 || amount == 0.0 || size == 0.0
  {
    hide IsGoverning, ParentSize, Nest, Chain, Reported, Painted, Nested;
    NestedHoldsWhen(amount, size);
    forall n: nat | n >= 1
      ensures Chain(sheet, Nest(rule, n, k))
      ensures Below(Reported(sheet, Nest(rule, n, k), 0), Painted(sheet, Nest(rule, n, k), 0, w)) <==> Product(amount, size) <= Nested(amount, n, size)
    {
      NestReport(sheet, rule, amount, k, size, n, w);
    }
    assert Below(Reported(sheet, Nest(rule, 2, k), 0), Painted(sheet, Nest(rule, 2, k), 0, w)) <==> Product(amount, size) <= Nested(amount, 2, size);
  }

  lemma NestIs(sheet: Sheet, rule: nat, n: nat, k: nat)
    requires n >= 1 && rule < |sheet| && IsGoverning(sheet, sheet[rule].parts, rule) && IsGoverning(sheet, sheet[rule].parts, k)
    ensures Chain(sheet, Nest(rule, n, k)) && Nest(rule, n, k)[0] == rule && SeenUpTo(Nest(rule, n, k), 0) == {rule}
  {
    hide IsGoverning;
    var chain := Nest(rule, n, k);
    assert forall i :: 0 <= i < n ==> chain[i] == rule;
    assert chain[n] == k;
  }

  lemma {:induction false} NestedNothing(amount: real, n: nat, size: real)
    requires n >= 1 && (amount == 0.0 || size == 0.0)
    ensures Nested(amount, n, size) == 0.0
  {
    if n > 1 { NestedNothing(amount, n - 1, size); }
  }

  lemma Shrinks(amount: real, size: real)
    requires 0.0 < amount < 1.0 && size > 0.0
    ensures Nested(amount, 2, size) < Product(amount, size)
  {
    hide Product;
    var once := Product(amount, size);
    assert Nested(amount, 1, size) == once;
    ScaledStrictly(amount, 0.0, size);
    Zero(amount);
    Less(amount, once);
  }

  lemma Zero(amount: real)
    ensures Product(amount, 0.0) == 0.0
  {
  }

  lemma Less(amount: real, size: real)
    requires amount < 1.0 && size > 0.0
    ensures Product(amount, size) < size
  {
    ScaledStrictly(size, amount, 1.0);
  }

  /** Half an em in its own kind, over twenty pixels: ten are reported, and two deep five painted. */
  const HALVING := [Rule([Some("a")], {"a"}, Some(Em(0.5))), Rule([], {"a"}, Some(Px(20.0)))]

  lemma SelfNestingOverstates(w: World)
    ensures Chain(HALVING, [0, 0, 1]) && Reported(HALVING, [0, 0, 1], 0) == Some(10.0) && Painted(HALVING, [0, 0, 1], 0, w) == 5.0
  {
    var sheet := HALVING;
    var rule, over := sheet[0], sheet[1];
    assert rule.parts[0].value in rule.covers && rule.parts[0].value in over.covers;
    assert GoverningFrom(sheet, "a", {0}, 2) == [];
    assert GoverningFrom(sheet, "a", {0}, 1) == [1];
    assert rule.parts[1..] == [];
    assert Candidates(sheet, rule.parts, {0}) == [1];
    assert [1][1..] == [];
    assert Smallest([1], sheet, {0}) == Some(20.0);
    assert Nest(0, 2, 1) == [0, 0, 1];
    NestIs(sheet, 0, 2, 1);
    NestPaints(sheet, 0, 0.5, 2, 1, 0, w);
    assert Nested(0.5, 1, 20.0) == 10.0;
  }

  /* ----- The walk as it runs ----- */

  lemma {:induction false} SmallestJoins(a: seq<nat>, b: seq<nat>, sheet: Sheet, seen: set<nat>)
    requires Usable(a, sheet, seen) && Usable(b, sheet, seen)
    ensures Usable(a + b, sheet, seen)
    ensures Smallest(a + b, sheet, seen) == LeastOfKnown(Smallest(a, sheet, seen), Smallest(b, sheet, seen))
    decreases a
  {
    if a == [] {
      assert a + b == b;
    } else {
      assert (a + b)[1..] == a[1..] + b;
      SmallestJoins(a[1..], b, sheet, seen);
    }
  }

  method EvaluateSize(expr: Expr, sheet: Sheet, rule: nat, seen: set<nat>) returns (px: Option<real>)
    requires rule < |sheet|
    ensures px == Evaluate(expr, sheet, rule, seen)
    decreases Unseen(sheet, seen), 2, expr
  {
    match expr
    case Inherit => px := FindParentSize(sheet, rule, seen);
    case Px(amount) => px := Some(amount);
    case Rem(amount) => px := Some(Product(amount, ROOT_PX));
    case Percent(amount) => px := Some(Product(amount, ROOT_PX) / 100.0);
    case Em(amount) =>
      var parent := FindParentSize(sheet, rule, seen);
      px := Times(amount, parent);
    case Clamp(low, preferred, high) => px := EvaluateSize(low, sheet, rule, seen);
    case MinOf(first, rest) =>
      px := EvaluateSize(first, sheet, rule, seen);
      ghost var start := px;
      assert rest[0..] == rest;
      for i := 0 to |rest|
        invariant MinFrom(px, rest[i..], sheet, rule, seen) == MinFrom(start, rest, sheet, rule, seen)
      {
        assert rest[i..][0] == rest[i] && rest[i..][1..] == rest[i + 1..];
        var arg := EvaluateSize(rest[i], sheet, rule, seen);
        px := LeastOfBoth(px, arg);
      }
      assert rest[|rest|..] == [];
    case MaxOf(first, rest) =>
      px := EvaluateSize(first, sheet, rule, seen);
      ghost var start := px;
      assert rest[0..] == rest;
      for i := 0 to |rest|
        invariant MaxFrom(px, rest[i..], sheet, rule, seen) == MaxFrom(start, rest, sheet, rule, seen)
      {
        assert rest[i..][0] == rest[i] && rest[i..][1..] == rest[i + 1..];
        var arg := EvaluateSize(rest[i], sheet, rule, seen);
        px := MostOfKnown(px, arg);
      }
      assert rest[|rest|..] == [];
    case Unsized(_) => px := None;
  }

  lemma LeastAssociates(a: Option<real>, b: Option<real>, c: Option<real>)
    ensures LeastOfKnown(a, LeastOfKnown(b, c)) == LeastOfKnown(LeastOfKnown(a, b), c)
    ensures LeastOfKnown(a, b) == if b.Some? && (a.None? || b.value < a.value) then b else a
    ensures LeastOfKnown(a, None) == a
  {
  }

  /** One part of the selector: each rule not yet seen lowers the best so far. */
  method LowerBy(start: Option<real>, ancestor: string, sheet: Sheet, seen: set<nat>) returns (best: Option<real>)
    ensures best == LeastOfKnown(start, Smallest(GoverningFrom(sheet, ancestor, seen, 0), sheet, seen))
    decreases Unseen(sheet, seen), 0, 0
  {
    hide Evaluate, LeastOfKnown, Smallest, GoverningFrom;
    assert Smallest(GoverningFrom(sheet, ancestor, seen, |sheet|), sheet, seen) == None by { GoverningEnds(sheet, ancestor, seen); }
    best := start;
    for k := 0 to |sheet|
      invariant LeastOfKnown(best, Smallest(GoverningFrom(sheet, ancestor, seen, k), sheet, seen))
             == LeastOfKnown(start, Smallest(GoverningFrom(sheet, ancestor, seen, 0), sheet, seen))
    {
      GoverningStep(sheet, ancestor, seen, k);
      if Governs(sheet, k, ancestor, seen) {
        assert k in Unseen(sheet, seen);
        var inner := EvaluateSize(sheet[k].size.value, sheet, k, seen + {k});
        LeastAssociates(best, inner, Smallest(GoverningFrom(sheet, ancestor, seen, k + 1), sheet, seen));
        if inner.Some? && (best.None? || inner.value < best.value) {
          best := inner;
        }
      }
    }
    LeastAssociates(best, None, None);
  }

  lemma GoverningEnds(sheet: Sheet, ancestor: string, seen: set<nat>)
    ensures Smallest(GoverningFrom(sheet, ancestor, seen, |sheet|), sheet, seen) == None
  {
  }

  lemma GoverningStep(sheet: Sheet, ancestor: string, seen: set<nat>, k: nat)
    requires k < |sheet|
    ensures Governs(sheet, k, ancestor, seen) ==>
              Smallest(GoverningFrom(sheet, ancestor, seen, k), sheet, seen) ==
                LeastOfKnown(Evaluate(sheet[k].size.value, sheet, k, seen + {k}),
                             Smallest(GoverningFrom(sheet, ancestor, seen, k + 1), sheet, seen))
    ensures !Governs(sheet, k, ancestor, seen) ==>
              GoverningFrom(sheet, ancestor, seen, k) == GoverningFrom(sheet, ancestor, seen, k + 1)
  {
    hide Evaluate;
    var rest := GoverningFrom(sheet, ancestor, seen, k + 1);
    if Governs(sheet, k, ancestor, seen) {
      assert ([k] + rest)[1..] == rest;
    } else {
      assert [] + rest == rest;
    }
  }

  method FindParentSize(sheet: Sheet, rule: nat, seen: set<nat>) returns (best: Option<real>)
    requires rule < |sheet|
    ensures best == ParentSize(sheet, rule, seen)
    decreases Unseen(sheet, seen), 0, 1
  {
    best := None;
    var parts := sheet[rule].parts;
    assert parts[0..] == parts;
    for i := 0 to |parts|
      invariant LeastOfKnown(best, Smallest(Candidates(sheet, parts[i..], seen), sheet, seen)) == ParentSize(sheet, rule, seen)
    {
      assert parts[i..][0] == parts[i] && parts[i..][1..] == parts[i + 1..];
      if parts[i].Some? {
        SmallestJoins(GoverningFrom(sheet, parts[i].value, seen, 0), Candidates(sheet, parts[i + 1..], seen), sheet, seen);
        best := LowerBy(best, parts[i].value, sheet, seen);
      } else {
        assert Candidates(sheet, parts[i..], seen) == Candidates(sheet, parts[i + 1..], seen);
      }
    }
  }
}
