/** The responsive-image `sizes` attribute builder of src/lib/image-config.ts
    and the breakpoint table it reads. */
module ImageConfig {
  import opened Js

  /** `BREAKPOINTS`: viewport widths in CSS pixels. */
  const Breakpoints: map<string, nat> := map["sm" := 640, "md" := 768, "lg" := 1024, "xl" := 1280, "2xl" := 1536]

  /** The breakpoints grow from `sm` to `2xl`. */
  lemma BreakpointsAscend()
    ensures Breakpoints.Keys == {"sm", "md", "lg", "xl", "2xl"}
    ensures Breakpoints["sm"] < Breakpoints["md"] < Breakpoints["lg"] < Breakpoints["xl"] < Breakpoints["2xl"]
  {
  }

  /** JavaScript truthiness of an optional string: present and non-empty. */
  predicate Truthy(s: Option<string>) {
    s.Some? && s.value != ""
  }

  /** One media-condition clause `(max-width: <px>px) <size>`. */
  function MediaClause(px: nat, size: string): string {
    "(max-width: " + NatToString(px) + "px) " + size
  }

  /** The unconditional last clause: the first truthy of desktop, tablet, mobile. */
  function Fallback(mobile: string, tablet: Option<string>, desktop: Option<string>): string {
    if Truthy(desktop) then desktop.value else if Truthy(tablet) then tablet.value else mobile
  }

  /** The clauses of the attribute, in order: the small-screen clause, the
      tablet clause when a tablet size is given, and the fallback. */
  function Clauses(mobile: string, tablet: Option<string>, desktop: Option<string>): (r: seq<string>)
    ensures |r| == if Truthy(tablet) then 3 else 2
  {
    [MediaClause(Breakpoints["sm"], mobile)]
    + (if Truthy(tablet) then [MediaClause(Breakpoints["lg"], tablet.value)] else [])
    + [Fallback(mobile, tablet, desktop)]
  }

  /** Strings joined with a separator between neighbours. */
  function Join(xs: seq<string>, sep: string): string {
    if |xs| == 0 then ""
    else if |xs| == 1 then xs[0]
    else xs[0] + sep + Join(xs[1..], sep)
  }

  /** `generateSizesString(config)`: the clauses joined by ", ", built by
      appending to a local string. */
  method GenerateSizesString(mobile: string, tablet: Option<string>, desktop: Option<string>) returns (sizes: string)
    ensures sizes == Join(Clauses(mobile, tablet, desktop), ", ")
  {
    sizes := MediaClause(Breakpoints["sm"], mobile);
    ghost var done := [sizes];
    if Truthy(tablet) {
      var clause := MediaClause(Breakpoints["lg"], tablet.value);
      JoinSnoc(done, clause, ", ");
      sizes := sizes + ", " + clause;
      done := done + [clause];
    }
    assert sizes == Join(done, ", ");
    ghost var last := Fallback(mobile, tablet, desktop);
    if Truthy(desktop) {
      sizes := sizes + ", " + desktop.value;
    } else if Truthy(tablet) {
      sizes := sizes + ", " + tablet.value;
    } else {
      sizes := sizes + ", " + mobile;
    }
    JoinSnoc(done, last, ", ");
    assert done + [last] == Clauses(mobile, tablet, desktop);
  }

  /** Appending one more string to a non-empty list appends a separator and it. */
  lemma {:induction false} JoinSnoc(xs: seq<string>, x: string, sep: string)
    requires xs != []
    ensures Join(xs + [x], sep) == Join(xs, sep) + sep + x
    decreases |xs|
  {
    if |xs| == 1 {
      assert xs + [x] == [xs[0], x];
      assert (xs + [x])[1..] == [x];
    } else {
      assert (xs + [x])[1..] == xs[1..] + [x];
      JoinSnoc(xs[1..], x, sep);
    }
  }

  /** The printed breakpoints are 640 and 1024. */
  lemma BreakpointDigits()
    ensures NatToString(Breakpoints["sm"]) == "640"
    ensures NatToString(Breakpoints["lg"]) == "1024"
  {
  }

  /** The attribute always opens with the small-screen clause for `mobile`. */
  lemma {:induction false} OpensWithMobile(mobile: string, tablet: Option<string>, desktop: Option<string>)
    ensures StartsWith(Join(Clauses(mobile, tablet, desktop), ", "), "(max-width: 640px) " + mobile)
  {
    BreakpointDigits();
    var cs := Clauses(mobile, tablet, desktop);
    var head := "(max-width: 640px) " + mobile;
    assert cs[0] == head;
    assert Join(cs, ", ") == head + ", " + Join(cs[1..], ", ");
    assert Join(cs, ", ")[..|head|] == head;
  }

  /** The tablet clause is present exactly when the tablet size is truthy,
      and it is the second clause. */
  lemma TabletClause(mobile: string, tablet: Option<string>, desktop: Option<string>)
    ensures Truthy(tablet) <==> |Clauses(mobile, tablet, desktop)| == 3
    ensures Truthy(tablet) ==> Clauses(mobile, tablet, desktop)[1] == "(max-width: 1024px) " + tablet.value
  {
    BreakpointDigits();
  }

  /** Exactly one unconditional clause closes the attribute: desktop when
      truthy, else tablet when truthy, else mobile. */
  lemma ClosingClause(mobile: string, tablet: Option<string>, desktop: Option<string>)
    ensures var cs := Clauses(mobile, tablet, desktop);
      && (Truthy(desktop) ==> cs[|cs| - 1] == desktop.value)
      && (!Truthy(desktop) && Truthy(tablet) ==> cs[|cs| - 1] == tablet.value)
      && (!Truthy(desktop) && !Truthy(tablet) ==> cs[|cs| - 1] == mobile)
      && (forall i :: 0 <= i < |cs| - 1 ==> StartsWith(cs[i], "(max-width: "))
  {
  }

  /** With only a mobile size the attribute is that size under 640px and
      the same size as fallback. */
  lemma MobileOnly(m: string)
    ensures Join(Clauses(m, None, None), ", ") == "(max-width: 640px) " + m + ", " + m
    ensures Join(Clauses(m, Some(""), Some("")), ", ") == "(max-width: 640px) " + m + ", " + m
  {
    BreakpointDigits();
  }
}
