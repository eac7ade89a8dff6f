/**
 * The browser-side tool lists: the most recently opened tools (newest first,
 * at most ten, one entry per tool name) and the favourite tools (in the order
 * they were added). Both lists live in `localStorage`; here they are the two
 * fields of a `ToolStore`, and `Date.now()` is the parameter `now` (ms).
 */
module ToolService {

  /** What the caller passes in for a tool. */
  datatype ToolData = ToolData(name: string, icon: string, category: string, url: string)

  /** A stored tool: the caller's data stamped with the time it was stored. */
  datatype Tool = Tool(name: string, icon: string, category: string, url: string, timestamp: int)

  /** `new Tool(...)` at time `now`. */
  function ToolOf(data: ToolData, now: int): Tool {
    Tool(data.name, data.icon, data.category, data.url, now)
  }

  const RecentCapacity: nat := 10

  /** `tools.filter(t => t.name !== name)`. */
  function WithoutName(tools: seq<Tool>, name: string): (r: seq<Tool>)
    ensures |r| <= |tools|
    ensures forall t :: t in r <==> t in tools && t.name != name
  {
    if tools == [] then []
    else if tools[0].name == name then WithoutName(tools[1..], name)
    else [tools[0]] + WithoutName(tools[1..], name)
  }

  /** Filtering keeps the relative order: it works piecewise on a concatenation. */
  lemma {:induction false} WithoutNameConcat(a: seq<Tool>, b: seq<Tool>, name: string)
    ensures WithoutName(a + b, name) == WithoutName(a, name) + WithoutName(b, name)
  {
    if a == [] {
      assert a + b == b;
    } else {
      assert (a + b)[0] == a[0];
      assert (a + b)[1..] == a[1..] + b;
      WithoutNameConcat(a[1..], b, name);
      var rest := WithoutName(a[1..], name);
      if a[0].name != name {
        assert [a[0]] + (rest + WithoutName(b, name)) == ([a[0]] + rest) + WithoutName(b, name);
      }
    }
  }

  /** No two tools share a name. */
  predicate UniqueNames(tools: seq<Tool>) {
    forall i, j :: 0 <= i < j < |tools| ==> tools[i].name != tools[j].name
  }

  /** Some tool in `tools` has this name (`tools.some(t => t.name === name)`). */
  predicate HasName(tools: seq<Tool>, name: string) {
    exists i :: 0 <= i < |tools| && tools[i].name == name
  }

  /** The recent list after opening `tool`: the others without its name, behind it, cut to ten. */
  function Recorded(recent: seq<Tool>, tool: Tool): (r: seq<Tool>)
    ensures 0 < |r| <= RecentCapacity && r[0] == tool
  {
    var filtered := [tool] + WithoutName(recent, tool.name);
    if |filtered| <= RecentCapacity then filtered else filtered[..RecentCapacity]
  }

  /**
   * After `recordToolAccess` the tool is first, the list holds at most ten
   * entries, no other entry has the tool's name, and the entries behind it are
   * the older ones without that name, in their old order, as many as fit.
   */
  lemma RecordedShape(recent: seq<Tool>, tool: Tool)
    ensures var r := Recorded(recent, tool);
            1 <= |r| <= RecentCapacity && r[0] == tool &&
            (forall i :: 1 <= i < |r| ==> r[i].name != tool.name) &&
            r[1..] == WithoutName(recent, tool.name)[..|r| - 1] &&
            (|WithoutName(recent, tool.name)| < RecentCapacity ==> |r| == |WithoutName(recent, tool.name)| + 1)
  {
    var r := Recorded(recent, tool);
    var rest := WithoutName(recent, tool.name);
    forall i | 1 <= i < |r|
      ensures r[i].name != tool.name
    {
      assert r[i] == rest[i - 1];
      assert rest[i - 1] in rest;
    }
  }

  /** Recording keeps the names of the recent list unique. */
  lemma {:induction false} RecordedKeepsNamesUnique(recent: seq<Tool>, tool: Tool)
    requires UniqueNames(recent)
    ensures UniqueNames(Recorded(recent, tool))
  {
    WithoutNameKeepsNamesUnique(recent, tool.name);
    RecordedShape(recent, tool);
  }

  lemma {:induction false} WithoutNameKeepsNamesUnique(tools: seq<Tool>, name: string)
    requires UniqueNames(tools)
    ensures UniqueNames(WithoutName(tools, name))
  {
    if tools != [] {
      WithoutNameKeepsNamesUnique(tools[1..], name);
      var rest := WithoutName(tools[1..], name);
      forall t | t in rest
        ensures t.name != tools[0].name
      {
        var j :| 0 <= j < |tools[1..]| && tools[1..][j] == t;
        assert tools[j + 1] == t;
      }
    }
  }

  /** `tools.findIndex(t => t.name === name)`: the first position holding the name, or -1. */
  function FindIndex(tools: seq<Tool>, name: string): (i: int)
    ensures -1 <= i < |tools|
    ensures i >= 0 ==> tools[i].name == name
    ensures forall j :: 0 <= j < |tools| && (i < 0 || j < i) ==> tools[j].name != name
  {
    if tools == [] then -1
    else if tools[0].name == name then 0
    else
      var i := FindIndex(tools[1..], name);
      if i < 0 then -1 else i + 1
  }

  /** The favourites after `toggleFavorite`: the first tool with the name spliced out, or the new tool pushed. */
  function Toggled(favorites: seq<Tool>, data: ToolData, now: int): (r: seq<Tool>)
    ensures FindIndex(favorites, data.name) > -1 ==> |r| == |favorites| - 1
    ensures FindIndex(favorites, data.name) == -1 ==> |r| == |favorites| + 1 && r[..|favorites|] == favorites &&
                                                      r[|favorites|].name == data.name
  {
    var index := FindIndex(favorites, data.name);
    if index > -1 then favorites[..index] + favorites[index + 1..]
    else favorites + [ToolOf(data, now)]
  }

  /**
   * Toggling a favourite name removes the first tool with that name and
   * nothing else: the tools before it and after it keep their places and order.
   */
  lemma ToggleRemovesFirstMatch(favorites: seq<Tool>, data: ToolData, now: int)
    requires HasName(favorites, data.name)
    ensures var r := Toggled(favorites, data, now);
            var i := FindIndex(favorites, data.name);
            0 <= i && favorites[i].name == data.name &&
            |r| == |favorites| - 1 &&
            (forall j :: 0 <= j < i ==> r[j] == favorites[j] && favorites[j].name != data.name) &&
            (forall j :: i < j < |favorites| ==> r[j - 1] == favorites[j]) &&
            multiset(r) + multiset{favorites[i]} == multiset(favorites)
  {
    var i := FindIndex(favorites, data.name);
    var k :| 0 <= k < |favorites| && favorites[k].name == data.name;
    assert i >= 0;
    SpliceShape(favorites, i);
  }

  /** `splice(i, 1)` drops the element at `i` and shifts the later ones down by one. */
  lemma SpliceShape(xs: seq<Tool>, i: nat)
    requires i < |xs|
    ensures var r := xs[..i] + xs[i + 1..];
            |r| == |xs| - 1 &&
            (forall j :: 0 <= j < i ==> r[j] == xs[j]) &&
            (forall j :: i < j < |xs| ==> r[j - 1] == xs[j]) &&
            multiset(r) + multiset{xs[i]} == multiset(xs)
  {
    var before, after := xs[..i], xs[i + 1..];
    assert xs == before + [xs[i]] + after;
  }

  /** Toggling a name that is not a favourite appends one new tool, stamped `now`. */
  lemma ToggleAppendsNew(favorites: seq<Tool>, data: ToolData, now: int)
    requires !HasName(favorites, data.name)
    ensures var r := Toggled(favorites, data, now);
            |r| == |favorites| + 1 && r[..|favorites|] == favorites && r[|favorites|] == ToolOf(data, now)
  {
    assert FindIndex(favorites, data.name) == -1;
  }

  /** With unique names, every toggle flips whether the name is a favourite and keeps the names unique. */
  lemma ToggleFlips(favorites: seq<Tool>, data: ToolData, now: int)
    requires UniqueNames(favorites)
    ensures var r := Toggled(favorites, data, now);
            UniqueNames(r) && (HasName(r, data.name) <==> !HasName(favorites, data.name))
  {
    var r := Toggled(favorites, data, now);
    if HasName(favorites, data.name) {
      ToggleRemovesFirstMatch(favorites, data, now);
    } else {
      ToggleAppendsNew(favorites, data, now);
      assert r[|favorites|].name == data.name;
    }
  }

  /** Adding a favourite and toggling it again gives back the list it started from. */
  lemma ToggleTwiceAfterAdd(favorites: seq<Tool>, data: ToolData, now: int, later: int)
    requires !HasName(favorites, data.name)
    ensures Toggled(Toggled(favorites, data, now), data, later) == favorites
  {
    var r := Toggled(favorites, data, now);
    ToggleAppendsNew(favorites, data, now);
    assert FindIndex(r, data.name) == |favorites|;
  }

  /** The two lists the service keeps in `localStorage`. */
  class ToolStore {
    var recent: seq<Tool>
    var favorites: seq<Tool>

    /** Nothing stored yet: both lists read as empty. */
    constructor()
      ensures recent == [] && favorites == []
    {
      recent := [];
      favorites := [];
    }

    /** `getRecentTools`. */
    function GetRecentTools(): seq<Tool>
      reads this
    {
      recent
    }

    /** `isFavorite`: some stored favourite has the name. */
    function IsFavorite(data: ToolData): (b: bool)
      reads this
      ensures b <==> exists t :: t in favorites && t.name == data.name
    {
      HasName(favorites, data.name)
    }

    /** `recordToolAccess`: moves the tool to the front of the recent list, which keeps at most ten. */
    method RecordToolAccess(data: ToolData, now: int) returns (updated: seq<Tool>)
      modifies this
      ensures recent == Recorded(old(recent), ToolOf(data, now)) && updated == recent
      ensures favorites == old(favorites)
      ensures |recent| <= RecentCapacity && recent[0] == ToolOf(data, now)
    {
      var tool := ToolOf(data, now);
      var filtered := WithoutName(recent, tool.name);
      filtered := [tool] + filtered;
      updated := if |filtered| <= RecentCapacity then filtered else filtered[..RecentCapacity];
      recent := updated;
    }

    /** `toggleFavorite`: splices out the first favourite with the name, or pushes a new one. */
    method ToggleFavorite(data: ToolData, now: int) returns (updated: seq<Tool>)
      modifies this
      ensures favorites == Toggled(old(favorites), data, now) && updated == favorites
      ensures recent == old(recent)
      ensures old(IsFavorite(data)) ==> |favorites| == |old(favorites)| - 1
      ensures !old(IsFavorite(data)) ==> |favorites| == |old(favorites)| + 1
    {
      var index := FindIndex(favorites, data.name);
      if index > -1 {
        favorites := favorites[..index] + favorites[index + 1..];
      } else {
        favorites := favorites + [ToolOf(data, now)];
      }
      updated := favorites;
    }

    /** `clearRecentTools`: afterwards the recent list reads as empty. */
    method ClearRecentTools()
      modifies this
      ensures GetRecentTools() == []
      ensures favorites == old(favorites)
    {
      recent := [];
    }
  }

  // --------------------------------------------------------------- formatTime

  /** The phrases of `formatTime`: '刚刚', 'n分钟前', 'n小时前', 'n天前'. */
  datatype RelativeTime = JustNow | MinutesAgo(minutes: int) | HoursAgo(hours: int) | DaysAgo(days: int)

  const MsPerMinute: int := 60000
  const MsPerHour: int := 3600000
  const MsPerDay: int := 86400000

  /**
   * `formatTime(timestamp)` at time `now`: under a minute (or in the future)
   * is "just now", then whole minutes below an hour, whole hours below a
   * day, and whole days beyond; each count is the elapsed time rounded down.
   */
  function FormatTime(timestamp: int, now: int): (r: RelativeTime)
    ensures r.JustNow? <==> now - timestamp < MsPerMinute
    ensures r.MinutesAgo? <==> MsPerMinute <= now - timestamp < MsPerHour
    ensures r.HoursAgo? <==> MsPerHour <= now - timestamp < MsPerDay
    ensures r.DaysAgo? <==> MsPerDay <= now - timestamp
    ensures r.MinutesAgo? ==>
              1 <= r.minutes < 60 && r.minutes * MsPerMinute <= now - timestamp < (r.minutes + 1) * MsPerMinute
    ensures r.HoursAgo? ==>
              1 <= r.hours < 24 && r.hours * MsPerHour <= now - timestamp < (r.hours + 1) * MsPerHour
    ensures r.DaysAgo? ==>
              1 <= r.days && r.days * MsPerDay <= now - timestamp < (r.days + 1) * MsPerDay
  {
    var diff := now - timestamp;
    var minutes := diff / MsPerMinute;
    var hours := diff / MsPerHour;
    var days := diff / MsPerDay;
    if minutes < 1 then JustNow
    else if minutes < 60 then MinutesAgo(minutes)
    else if hours < 24 then HoursAgo(hours)
    else DaysAgo(days)
  }
}
