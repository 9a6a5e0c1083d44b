/** The side bar: it reads the selected option and the mode from the URL, redirects away from
    a reports page the eventual-permits mode does not have, and moves its selection marker to
    the selected option. */
module SideBar {
  import opened JsValues

  /** `s.split('/')`: the pieces between the slashes, empty ones included; never empty. */
  function Split(s: string): (parts: seq<string>)
    ensures |parts| >= 1
  {
    if s == [] then [""]
    else if s[0] == '/' then [""] + Split(s[1..])
    else var rest := Split(s[1..]); [[s[0]] + rest[0]] + rest[1..]
  }

  /** `parts.join('/')`. */
  function Join(parts: seq<string>): string
    requires |parts| >= 1
  {
    if |parts| == 1 then parts[0] else parts[0] + "/" + Join(parts[1..])
  }

  predicate NoSlash(s: string)
  {
    '/' !in s
  }

  /** Splitting loses nothing: joining the pieces back gives the URL. */
  lemma {:induction false} SplitJoin(s: string)
    ensures Join(Split(s)) == s
  {
    if s != [] {
      SplitJoin(s[1..]);
      var rest := Split(s[1..]);
      if s[0] == '/' {
        assert Split(s)[1..] == rest;
        assert s == "/" + s[1..];
      } else {
        assert s == [s[0]] + s[1..];
        if |rest| > 1 {
          assert Split(s)[1..] == rest[1..];
          assert Join(rest) == rest[0] + "/" + Join(rest[1..]);
        }
      }
    }
  }

  /** No piece of a split holds a slash. */
  lemma {:induction false} SplitNoSlash(s: string)
    ensures forall i :: 0 <= i < |Split(s)| ==> NoSlash(Split(s)[i])
  {
    if s != [] {
      SplitNoSlash(s[1..]);
      var rest := Split(s[1..]);
      if s[0] != '/' {
        forall i | 0 <= i < |Split(s)|
          ensures NoSlash(Split(s)[i])
        {
          if i > 0 {
            assert Split(s)[i] == rest[i];
          }
        }
      }
    }
  }

  /** A piece without slashes splits into itself. */
  lemma {:induction false} SplitWord(w: string)
    requires NoSlash(w)
    ensures Split(w) == [w]
  {
    if w != [] {
      SplitWord(w[1..]);
      assert w == [w[0]] + w[1..];
    }
  }

  /** How one leading character enters the split. */
  lemma SplitCons(c: char, r: string)
    ensures c == '/' ==> Split([c] + r) == [""] + Split(r)
    ensures c != '/' ==> Split([c] + r) == [[c] + Split(r)[0]] + Split(r)[1..]
  {
    assert ([c] + r)[0] == c && ([c] + r)[1..] == r;
  }

  /** One more leading character keeps a split at a slash splitting each side on its own. */
  lemma SplitAppendStep(c: char, a: string, b: string)
    requires Split(a + "/" + b) == Split(a) + Split(b)
    ensures Split([c] + a + "/" + b) == Split([c] + a) + Split(b)
  {
    assert [c] + a + "/" + b == [c] + (a + "/" + b);
    if c == '/' {
      SlashStep(a + "/" + b, Split(a), Split(b));
      SplitCons(c, a);
    } else {
      WordStep(c, a + "/" + b, Split(a), Split(b));
      SplitCons(c, a);
    }
  }

  /** A leading slash adds an empty piece in front. */
  lemma SlashStep(t: string, sa: seq<string>, sb: seq<string>)
    requires Split(t) == sa + sb
    ensures Split(['/'] + t) == ([""] + sa) + sb
  {
    SplitCons('/', t);
    assert [""] + (sa + sb) == ([""] + sa) + sb;
  }

  /** Any other leading character joins the first piece. */
  lemma WordStep(c: char, t: string, sa: seq<string>, sb: seq<string>)
    requires c != '/' && |sa| >= 1 && Split(t) == sa + sb
    ensures Split([c] + t) == ([[c] + sa[0]] + sa[1..]) + sb
  {
    SplitCons(c, t);
    var st := sa + sb;
    assert st[0] == sa[0];
    assert st[1..] == sa[1..] + sb;
    assert [[c] + sa[0]] + (sa[1..] + sb) == ([[c] + sa[0]] + sa[1..]) + sb;
  }

  /** Splitting at one slash splits each side on its own. */
  lemma {:induction false} SplitAppend(a: string, b: string)
    ensures Split(a + "/" + b) == Split(a) + Split(b)
  {
    if a == [] {
      assert a + "/" + b == ['/'] + b;
      SplitCons('/', b);
    } else {
      SplitAppend(a[1..], b);
      SplitAppendStep(a[0], a[1..], b);
      assert a == [a[0]] + a[1..];
    }
  }

  /** `segments[i] || fallback`: a missing or empty segment gives the fallback. */
  function SegmentOr(segments: seq<string>, i: nat, fallback: string): (r: string)
    ensures i < |segments| && segments[i] != "" ==> r == segments[i]
    ensures (i >= |segments| || segments[i] == "") ==> r == fallback
  {
    if i < |segments| && segments[i] != "" then segments[i] else fallback
  }

  /** The option the URL selects: its third piece, the dashboard by default. */
  function OptionOf(url: string): string
  {
    SegmentOr(Split(url), 2, "dashboard")
  }

  /** The mode the URL selects: its fourth piece, certificates by default. */
  function ModeOf(url: string): string
  {
    SegmentOr(Split(url), 3, "certificates")
  }

  /** The URL `selectOption` navigates to, as the router reports it afterwards, selects the
      option and the mode it was built from. */
  lemma NavigationRoundTrip(option: string, mode: string)
    requires NoSlash(option) && NoSlash(mode) && option != "" && mode != ""
    ensures OptionOf("/admin/" + option + "/" + mode) == option
    ensures ModeOf("/admin/" + option + "/" + mode) == mode
  {
    SplitWord(mode);
    var tail := option + "/" + mode;
    SplitPrefix(option, mode, [mode]);
    var middle := "admin" + "/" + tail;
    SplitPrefix("admin", tail, [option, mode]);
    SplitPrefix("", middle, ["admin", option, mode]);
    assert "/admin/" + option + "/" + mode == "" + "/" + middle;
  }

  /** A slash-free piece and a slash in front of a text put that piece in front of its split. */
  lemma SplitPrefix(w: string, rest: string, parts: seq<string>)
    requires NoSlash(w) && Split(rest) == parts
    ensures Split(w + "/" + rest) == [w] + parts
  {
    SplitAppend(w, rest);
    SplitWord(w);
  }

  /** The positions the selection marker can take: its start and one per option. */
  predicate KnownPosition(p: real)
  {
    p == 4.5 || p == 3.5 || p == 18.0 || p == 32.5
  }

  /** `routeOption`'s choice: the first of dashboard, reports and details the URL contains,
      the dashboard when it contains none. */
  function RouteOptionOf(url: string): (option: string)
    ensures option in {"dashboard", "reports", "details"}
    ensures Contains(url, "dashboard") ==> option == "dashboard"
    ensures !Contains(url, "dashboard") && Contains(url, "reports") ==> option == "reports"
    ensures option == "details" <==> !Contains(url, "dashboard") && !Contains(url, "reports") && Contains(url, "details")
  {
    if Contains(url, "dashboard") then "dashboard"
    else if Contains(url, "reports") then "reports"
    else if Contains(url, "details") then "details"
    else "dashboard"
  }

  /** Where `animateIcon` leaves the marker, from the selected option, the mode and the
      marker's position before: the option's position, except that the reports position is
      not taken in the eventual-permits mode and an unknown option moves nothing. */
  function MarkerAfter(option: string, mode: string, p: real): (q: real)
    ensures KnownPosition(p) ==> KnownPosition(q)
    ensures option !in {"dashboard", "details", "reports"} ==> q == p
    ensures option == "dashboard" ==> q == 3.5
    ensures option == "details" ==> q == 18.0
    ensures option == "reports" ==> q == if mode != "eventual-permits" then 32.5 else p
  {
    match option
    case "dashboard" => 3.5
    case "details" => 18.0
    case "reports" => if mode != "eventual-permits" then 32.5 else p
    case _ => p
  }

  /** Outside the eventual-permits mode, the marker left by `ngOnInit` depends only on the
      URL, never on where the marker was before. */
  lemma InitMarkerFollowsRoute(url: string, p: real, p': real)
    requires ModeOf(url) != "eventual-permits"
    ensures var m := ModeOf(url);
      MarkerAfter(RouteOptionOf(url), m, MarkerAfter(OptionOf(url), m, p)) ==
      MarkerAfter(RouteOptionOf(url), m, MarkerAfter(OptionOf(url), m, p'))
  {
  }

  class SideBarComponent {
    var selectedOption: string
    var iconTopPosition: real
    var currentMode: string

    /** The marker is always at one of its known positions. */
    predicate Valid()
      reads this
    {
      KnownPosition(iconTopPosition)
    }

    constructor()
      ensures Valid()
      ensures selectedOption == "dashboard" && iconTopPosition == 4.5 && currentMode == "certificates"
    {
      selectedOption := "dashboard";
      iconTopPosition := 4.5;
      currentMode := "certificates";
    }

    /** `animateIcon`: the marker moves to the selected option; the reports position is not
        taken in the eventual-permits mode, and an unknown option leaves the marker where it
        is. */
    method AnimateIcon()
      requires Valid()
      modifies this
      ensures Valid()
      ensures iconTopPosition == MarkerAfter(selectedOption, currentMode, old(iconTopPosition))
      ensures selectedOption == "dashboard" ==> iconTopPosition == 3.5
      ensures selectedOption == "details" ==> iconTopPosition == 18.0
      ensures selectedOption == "reports" && currentMode != "eventual-permits" ==> iconTopPosition == 32.5
      ensures selectedOption == "reports" && currentMode == "eventual-permits" ==> iconTopPosition == old(iconTopPosition)
      ensures selectedOption !in {"dashboard", "details", "reports"} ==> iconTopPosition == old(iconTopPosition)
      ensures selectedOption == old(selectedOption) && currentMode == old(currentMode)
    {
      match selectedOption {
        case "dashboard" => iconTopPosition := 3.5;
        case "details" => iconTopPosition := 18.0;
        case "reports" =>
          if currentMode != "eventual-permits" {
            iconTopPosition := 32.5;
          }
        case _ =>
      }
    }

    /** The navigation-end handler: option and mode are read from the new URL; a reports
        page in the eventual-permits mode is redirected to that mode's dashboard, which the
        marker follows on the next navigation. */
    method OnNavigationEnd(url: string) returns (redirect: Option<string>)
      requires Valid()
      modifies this
      ensures Valid()
      ensures selectedOption == OptionOf(url) && currentMode == ModeOf(url)
      ensures redirect.Some? <==> currentMode == "eventual-permits" && selectedOption == "reports"
      ensures redirect.Some? ==> redirect.value == "admin/dashboard/" + currentMode && iconTopPosition == old(iconTopPosition)
      ensures iconTopPosition == MarkerAfter(selectedOption, currentMode, old(iconTopPosition))
    {
      var segments := Split(url);
      selectedOption := SegmentOr(segments, 2, "dashboard");
      currentMode := SegmentOr(segments, 3, "certificates");
      redirect := None;
      if currentMode == "eventual-permits" && selectedOption == "reports" {
        redirect := Some("admin/dashboard/" + currentMode);
      }
      AnimateIcon();
    }

    /** `ngOnInit`: option and mode from the URL, then the option is chosen again by keyword
        and the marker placed for it. */
    method NgOnInit(url: string)
      requires Valid()
      modifies this
      ensures Valid()
      ensures currentMode == ModeOf(url) && selectedOption == RouteOptionOf(url)
      ensures iconTopPosition ==
        MarkerAfter(RouteOptionOf(url), ModeOf(url), MarkerAfter(OptionOf(url), ModeOf(url), old(iconTopPosition)))
    {
      var segments := Split(url);
      selectedOption := SegmentOr(segments, 2, "dashboard");
      currentMode := SegmentOr(segments, 3, "certificates");
      AnimateIcon();
      RouteOption(url);
    }

    /** `routeOption`: the option named in the URL by priority, and the marker placed for it. */
    method RouteOption(url: string)
      requires Valid()
      modifies this
      ensures Valid()
      ensures selectedOption == RouteOptionOf(url) && currentMode == old(currentMode)
      ensures iconTopPosition == MarkerAfter(selectedOption, currentMode, old(iconTopPosition))
    {
      if Contains(url, "dashboard") {
        selectedOption := "dashboard";
      } else if Contains(url, "reports") {
        selectedOption := "reports";
      } else if Contains(url, "details") {
        selectedOption := "details";
      } else {
        selectedOption := "dashboard";
      }
      AnimateIcon();
    }

    /** `selectOption`: the selection and the marker change at once; the navigation, to the
        option in the current mode, is returned to be carried out later. */
    method SelectOption(option: string) returns (navigation: string)
      requires Valid()
      modifies this
      ensures Valid()
      ensures selectedOption == option && currentMode == old(currentMode)
      ensures option == "dashboard" ==> iconTopPosition == 3.5
      ensures option == "details" ==> iconTopPosition == 18.0
      ensures iconTopPosition == MarkerAfter(option, currentMode, old(iconTopPosition))
      ensures navigation == "admin/" + option + "/" + currentMode
    {
      selectedOption := option;
      AnimateIcon();
      navigation := "admin/" + option + "/" + currentMode;
    }
  }
}
