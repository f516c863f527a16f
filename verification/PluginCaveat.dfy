/**
 The plugin caveat of a macaroon: how it is printed when a macaroon is baked, and how the validator reads it back
 from the caveats of a request.
 */
module PluginCaveat {
  import opened Wrappers
  import opened Strings

  datatype Error = InvalidPluginName

  predicate NameChar(c: char) {
    'a' <= c <= 'z' || 'A' <= c <= 'Z' || '0' <= c <= '9' || c == '_' || c == '-'
  }

  /** The pattern ^[a-zA-Z0-9_-]+$. */
  predicate ValidName(name: string) {
    name != "" && forall c :: c in name ==> NameChar(c)
  }

  /** Both ends of each range of the pattern belong to it, and their neighbours outside do not. */
  lemma NameCharEnds()
    ensures forall c :: c in ['a', 'z', 'A', 'Z', '0', '9', '_', '-'] ==> NameChar(c)
    ensures forall c :: c in ['`', '{', '@', '[', '/', ':', '^', '.', ',', ' '] ==> !NameChar(c)
  {
  }

  predicate AllValid(names: seq<string>) {
    forall n :: n in names ==> ValidName(n)
  }

  // Printing

  /** `PluginCaveat`: a declared caveat, which prints as "declared", the key and the value. */
  function Caveat(names: seq<string>): string {
    var value := if |names| == 1 then names[0] else Join(names, ':');
    "declared" + " " + ("plugins" + " " + value)
  }

  /** `PluginConstraint`: the condition it adds to a macaroon, if any. */
  function Constraint(names: seq<string>): Result<Option<string>, Error> {
    if names == [] then Ok(None)
    else if exists n :: n in names && !ValidName(n) then Err(InvalidPluginName)
    else
      var value := Join(names, ':');
      Ok(Some(if value == "" then "plugins" else "plugins" + " " + value))
  }

  // Reading

  datatype Verdict =
    | Ignored // not a plugin caveat
    | Allows
    | Denies
    | IndexPanic // the third field is read although there are only two

  /** What one caveat says about a request for plugin `req`. */
  function Read(caveat: string, req: string): Verdict {
    var split := Split(caveat, ' ');
    if |split| < 2 || split[1] != "plugins" then Ignored
    else if |split| == 2 then IndexPanic
    else if ':' in split[2] then
      if req in Split(split[2], ':') then Allows else Denies
    else if Contains(req, split[2]) || split[2] == "all" then Allows
    else Denies
  }

  datatype Check = Passed | KeyNotInContext | UnauthorizedPluginAction | Panicked

  method StrInStrSlice(strSlice: seq<string>, str: string) returns (found: bool)
    ensures found <==> str in strSlice
  {
    for i := 0 to |strSlice|
      invariant str !in strSlice[..i]
    {
      if strSlice[i] == str {
        return true;
      }
    }
    found := false;
  }

  /** The caveats are looked at: the method concerns a plugin, the request names one, and some are registered. */
  predicate Examined(pluginMethod: bool, registeredPlugins: seq<string>, reqPlugName: Option<string>) {
    pluginMethod && reqPlugName.Some? && reqPlugName.value != "" && registeredPlugins != []
  }

  /**
   The plugin part of `ValidateMacaroon`. With plugins registered, a request passes exactly if some caveat allows it;
   it is cut short by the first caveat of two fields whose second is "plugins".
   */
  method CheckPlugins(pluginMethod: bool, registeredPlugins: seq<string>, caveats: seq<string>,
                      reqPlugName: Option<string>)
    returns (check: Check)
    ensures check == KeyNotInContext <==> pluginMethod && (reqPlugName.None? || reqPlugName.value == "")
    ensures check == Panicked <==>
              && Examined(pluginMethod, registeredPlugins, reqPlugName)
              && exists j :: 0 <= j < |caveats| && Read(caveats[j], reqPlugName.value) == IndexPanic
    ensures check == UnauthorizedPluginAction <==>
              && Examined(pluginMethod, registeredPlugins, reqPlugName)
              && forall j :: 0 <= j < |caveats| ==> Read(caveats[j], reqPlugName.value) in {Ignored, Denies}
  {
    if !pluginMethod {
      return Passed;
    }
    if reqPlugName.None? || reqPlugName.value == "" {
      return KeyNotInContext;
    }
    var req := reqPlugName.value;
    if |registeredPlugins| != 0 {
      var okP := false;
      for i := 0 to |caveats|
        invariant okP <==> exists j :: 0 <= j < i && Read(caveats[j], req) == Allows
        invariant forall j :: 0 <= j < i ==> Read(caveats[j], req) != IndexPanic
      {
        var split := Split(caveats[i], ' ');
        if |split| >= 2 && split[1] == "plugins" {
          if |split| == 2 {
            assert Read(caveats[i], req) == IndexPanic;
            return Panicked;
          }
          if ':' in split[2] {
            var plugins := Split(split[2], ':');
            var listed := StrInStrSlice(plugins, req);
            if listed {
              okP := true;
            }
          } else if Contains(req, split[2]) || split[2] == "all" {
            okP := true;
          }
        }
      }
      if !okP {
        return UnauthorizedPluginAction;
      }
    }
    check := Passed;
  }

  // The round trip

  lemma NamesHaveNoSeparators(names: seq<string>)
    requires AllValid(names)
    ensures forall n :: n in names ==> ' ' !in n && ':' !in n
  {
    forall n | n in names ensures ' ' !in n && ':' !in n {
      assert ValidName(n);
      assert !NameChar(' ') && !NameChar(':');
    }
  }

  lemma CaveatFields(value: string)
    requires ' ' !in value
    ensures Split("declared" + " " + ("plugins" + " " + value), ' ') == ["declared", "plugins", value]
  {
    SplitPlain(value, ' ');
    SplitFirst("plugins", value, ' ');
    SplitFirst("declared", "plugins" + [' '] + value, ' ');
  }

  /** Splitting the printed caveat on spaces and its third field on colons gives exactly the names back. */
  lemma CaveatRoundTrip(names: seq<string>)
    requires names != [] && AllValid(names)
    ensures var fields := Split(Caveat(names), ' ');
            && |fields| == 3 && fields[0] == "declared" && fields[1] == "plugins"
            && Split(fields[2], ':') == names
  {
    NamesHaveNoSeparators(names);
    JoinChars(names, ':', ' ');
    CaveatFields(Join(names, ':'));
    SplitOfJoin(names, ':');
  }

  /** Two or more names: the check is membership. */
  lemma ListIsMembership(names: seq<string>, req: string)
    requires |names| >= 2 && AllValid(names)
    ensures Read(Caveat(names), req) == if req in names then Allows else Denies
  {
    NamesHaveNoSeparators(names);
    JoinChars(names, ':', ' ');
    CaveatFields(Join(names, ':'));
    SplitOfJoin(names, ':');
    JoinHasSeparator(names, ':');
  }

  /** One name: the check asks for a substring of the requested name, or for the word "all". */
  lemma SingleIsSubstring(name: string, req: string)
    requires ValidName(name)
    ensures Read(Caveat([name]), req) == if name == "all" || Contains(req, name) then Allows else Denies
  {
    NamesHaveNoSeparators([name]);
    CaveatFields(name);
  }

  lemma EmptyListAllowsAll(req: string)
    ensures Read(Caveat([]), req) == Allows
  {
    CaveatFields("");
    assert OccursAt(req, "", 0);
  }

  /** A printed caveat allows exactly the names it lists if and only if it lists at least two. */
  lemma ExactlyTheListedIff(names: seq<string>)
    requires AllValid(names)
    ensures (forall req :: ValidName(req) ==> (Read(Caveat(names), req) == Allows <==> req in names)) <==> |names| >= 2
  {
    if |names| >= 2 {
      forall req | ValidName(req) ensures Read(Caveat(names), req) == Allows <==> req in names {
        ListIsMembership(names, req);
      }
    } else if |names| == 1 {
      var other := names[0] + "a";
      assert names == [names[0]] && ValidName(names[0]);
      assert forall c :: c in other ==> c in names[0] || c == 'a';
      SingleIsSubstring(names[0], other);
      assert OccursAt(other, names[0], 0);
      assert ValidName(other) && other !in names;
    } else {
      EmptyListAllowsAll("a");
      assert ValidName("a");
    }
  }

  // Whole macaroons

  /** Only the second field makes a plugin caveat, and of that only the third field counts. */
  lemma OnlyTwoFieldsCount(caveat: string, req: string)
    ensures var fields := Split(caveat, ' ');
            && (|fields| < 2 || fields[1] != "plugins" <==> Read(caveat, req) == Ignored)
            && (|fields| >= 3 && fields[1] == "plugins" ==>
                  Read(caveat, req) == Read("declared" + " " + ("plugins" + " " + fields[2]), req))
  {
    var fields := Split(caveat, ' ');
    if |fields| >= 3 && fields[1] == "plugins" {
      JoinOfSplit(caveat, ' ');
      assert fields[2] in fields;
      CaveatFields(fields[2]);
    }
  }

  /** A caveat of another kind, a time limit for instance, neither allows nor denies anything. */
  lemma OtherCaveatIgnored(key: string, value: string, req: string)
    requires ' ' !in key && ' ' !in value && value != "plugins"
    ensures Read(key, req) == Ignored && Read(key + [' '] + value, req) == Ignored
  {
    SplitPlain(key, ' ');
    SplitFirst(key, value, ' ');
    SplitPlain(value, ' ');
  }

  /** A caveat of a macaroon: a printed list of two or more names, or one of another kind. */
  predicate PrintedOrOther(caveat: string, list: Option<seq<string>>) {
    match list
    case Some(names) => |names| >= 2 && AllValid(names) && caveat == Caveat(names)
    case None => var fields := Split(caveat, ' '); |fields| < 2 || fields[1] != "plugins"
  }

  /**
   Printed lists, in any number and among any other caveats, together allow exactly the union of their names: by the
   contract of `CheckPlugins` a request with such a macaroon passes exactly if one of the lists names the plugin.
   */
  lemma CaveatsAllowUnion(lists: seq<Option<seq<string>>>, caveats: seq<string>, req: string)
    requires |caveats| == |lists| && forall i :: 0 <= i < |lists| ==> PrintedOrOther(caveats[i], lists[i])
    ensures (exists i :: 0 <= i < |caveats| && Read(caveats[i], req) == Allows) <==>
            (exists i :: 0 <= i < |lists| && lists[i].Some? && req in lists[i].value)
    ensures (forall i :: 0 <= i < |caveats| ==> Read(caveats[i], req) in {Ignored, Denies}) <==>
            !(exists i :: 0 <= i < |lists| && lists[i].Some? && req in lists[i].value)
    ensures forall i :: 0 <= i < |caveats| ==> Read(caveats[i], req) != IndexPanic
  {
    forall i | 0 <= i < |lists|
      ensures Read(caveats[i], req) ==
              if lists[i].None? then Ignored else if req in lists[i].value then Allows else Denies
    {
      if lists[i].Some? { ListIsMembership(lists[i].value, req); }
    }
  }

  /** The macaroon the daemon bakes for a time and a list of plugins allows exactly those plugins. */
  lemma BakedMacaroonAllowsListed(time: string, names: seq<string>, req: string)
    requires ' ' !in time && time != "plugins" && |names| >= 2 && AllValid(names)
    ensures Read("time-before" + [' '] + time, req) == Ignored
    ensures Read(Caveat(names), req) == if req in names then Allows else Denies
  {
    OtherCaveatIgnored("time-before", time, req);
    ListIsMembership(names, req);
  }

  /** The condition a constraint adds lacks the word "declared", so the validator never counts it as a plugin caveat. */
  lemma ConstraintIsNotRead(names: seq<string>, req: string)
    requires names != [] && AllValid(names)
    ensures Constraint(names).Ok? && Constraint(names).value.Some?
    ensures Read(Constraint(names).value.value, req) == if Join(names, ':') == "plugins" then IndexPanic else Ignored
  {
    NamesHaveNoSeparators(names);
    JoinChars(names, ':', ' ');
    assert ValidName(names[0]);
    assert Join(names, ':') != "";
    SplitPlain(Join(names, ':'), ' ');
    SplitFirst("plugins", Join(names, ':'), ' ');
  }

  /** A constraint fails exactly on an invalid name, and adds nothing exactly for an empty list. */
  lemma ConstraintIff(names: seq<string>)
    ensures Constraint(names).Err? <==> !AllValid(names)
    ensures Constraint(names) == Ok(None) <==> names == []
    ensures names != [] && AllValid(names) ==>
              var fields := Split(Constraint(names).value.value, ' ');
              |fields| == 2 && fields[0] == "plugins" && Split(fields[1], ':') == names
  {
    if names != [] && AllValid(names) {
      NamesHaveNoSeparators(names);
      JoinChars(names, ':', ' ');
      SplitOfJoin(names, ':');
      assert ValidName(names[0]);
      assert Join(names, ':') != "";
      SplitPlain(Join(names, ':'), ' ');
      SplitFirst("plugins", Join(names, ':'), ' ');
    }
  }
}
