/*
 * A chat prompt template (an ordered list of turns) and its two renderings:
 * the message list for OpenAI's chat-completion API, and a plain-text prompt
 * for completion models. Both substitute template variables into every turn
 * and leave out the turns whose substituted content is blank.
 */
module ChatPrompt {
  import opened Text

  /** Who speaks a turn: the literal "system" or "user". */
  datatype Role = System | User

  /** One turn of a chat prompt template. */
  datatype ChatTurn = ChatTurn(role: Role, content: string)

  /** A chat prompt template: its turns, in order. */
  datatype ChatMessages = ChatMessages(messages: seq<ChatTurn>)

  /** One entry of the chat-completion message list, the dictionary
      {"role": role, "content": content}. */
  datatype CompletionMessage = CompletionMessage(role: Role, content: string)

  /** The variable substitution `replace_variables(content, variables)`. Its
      code is not part of this model: every operation takes it as a
      parameter, and nothing is assumed of it. */
  type Replacer = (string, map<string, string>) -> string

  /** A turn with its variables substituted; the role is kept and the
      content is not stripped. */
  function Substitute(turn: ChatTurn, variables: map<string, string>, replace: Replacer): CompletionMessage
  {
    CompletionMessage(turn.role, replace(turn.content, variables))
  }

  /** The first list comprehension: every turn substituted, in order. */
  function SubstituteAll(turns: seq<ChatTurn>, variables: map<string, string>, replace: Replacer): seq<CompletionMessage>
  {
    seq(|turns|, i requires 0 <= i < |turns| => Substitute(turns[i], variables, replace))
  }

  /** The second list comprehension: the messages whose content is not blank,
      in order. */
  function KeepNonBlank(ms: seq<CompletionMessage>): (r: seq<CompletionMessage>)
    ensures |r| <= |ms|
    ensures forall j :: 0 <= j < |r| ==> NotBlank(r[j].content)
  {
    if ms == [] then []
    else (if NotBlank(ms[0].content) then [ms[0]] else []) + KeepNonBlank(ms[1..])
  }

  /** `ChatMessages.to_openai_chat_completion_messages(variables)`. */
  function ToOpenAIChatCompletionMessages(chat: ChatMessages, variables: map<string, string>, replace: Replacer)
    : (r: seq<CompletionMessage>)
    ensures |r| <= |chat.messages|
    ensures forall j :: 0 <= j < |r| ==> NotBlank(r[j].content)
  {
    KeepNonBlank(SubstituteAll(chat.messages, variables, replace))
  }

  // ---------------------------------------------------------------------
  // The message list is exactly the in-order subsequence of the non-blank
  // substituted turns.
  // ---------------------------------------------------------------------

  ghost predicate StrictlyIncreasing(idx: seq<nat>)
  {
    forall j, k :: 0 <= j < k < |idx| ==> idx[j] < idx[k]
  }

  /** `out` lists, in order, the substituted turns at positions `idx`, and
      `idx` holds exactly the positions whose substituted content is not
      blank. */
  ghost predicate SelectsNonBlank(turns: seq<ChatTurn>, variables: map<string, string>, replace: Replacer,
                                  idx: seq<nat>, out: seq<CompletionMessage>)
  {
    && StrictlyIncreasing(idx)
    && |idx| == |out|
    && (forall j :: 0 <= j < |idx| ==> idx[j] < |turns| && out[j] == Substitute(turns[idx[j]], variables, replace))
    && (forall i {:trigger i in idx} :: 0 <= i < |turns| ==> (i in idx <==> NotBlank(replace(turns[i].content, variables))))
  }

  /** The same on already substituted messages. */
  ghost predicate SelectsNonBlankOf(ms: seq<CompletionMessage>, idx: seq<nat>, out: seq<CompletionMessage>)
  {
    && StrictlyIncreasing(idx)
    && |idx| == |out|
    && (forall j :: 0 <= j < |idx| ==> idx[j] < |ms| && out[j] == ms[idx[j]])
    && (forall i {:trigger i in idx} :: 0 <= i < |ms| ==> (i in idx <==> NotBlank(ms[i].content)))
  }

  /** Every position moved one place on. */
  function Shifted(s: seq<nat>): (r: seq<nat>)
    ensures |r| == |s| && forall j :: 0 <= j < |s| ==> r[j] == s[j] + 1
  {
    if s == [] then [] else [s[0] + 1] + Shifted(s[1..])
  }

  /** A blank message put in front of a selection is not selected; every
      selected position moves one place on. */
  lemma SelectSkip(m: CompletionMessage, ms: seq<CompletionMessage>, idx: seq<nat>, out: seq<CompletionMessage>)
    returns (idx': seq<nat>)
    requires !NotBlank(m.content)
    requires SelectsNonBlankOf(ms, idx, out)
    ensures SelectsNonBlankOf([m] + ms, idx', out)
  {
    var all := [m] + ms;
    idx' := Shifted(idx);
    assert forall j :: 0 <= j < |idx'| ==> idx'[j] < |all| && out[j] == all[idx'[j]];
    assert forall i {:trigger i in idx'} :: 0 <= i < |all| ==> (i in idx' <==> NotBlank(all[i].content)) by {
      forall i | 0 <= i < |all| ensures i in idx' <==> NotBlank(all[i].content) {
        if 0 < i {
          assert all[i] == ms[i - 1];
          if i - 1 in idx {
            var j :| 0 <= j < |idx| && idx[j] == i - 1;
            assert idx'[j] == i;
          }
        }
      }
    }
  }

  /** A non-blank message put in front of a selection is selected first;
      every other selected position moves one place on. */
  lemma SelectKeep(m: CompletionMessage, ms: seq<CompletionMessage>, idx: seq<nat>, out: seq<CompletionMessage>)
    returns (idx': seq<nat>)
    requires NotBlank(m.content)
    requires SelectsNonBlankOf(ms, idx, out)
    ensures SelectsNonBlankOf([m] + ms, idx', [m] + out)
  {
    idx' := [0] + Shifted(idx);
    SelectKeepIncreasing(idx);
    SelectKeepPositions(m, ms, idx, out);
    SelectKeepComplete(m, ms, idx);
  }

  /** The positions of a kept front message, and those after it, increase. */
  lemma SelectKeepIncreasing(idx: seq<nat>)
    requires StrictlyIncreasing(idx)
    ensures StrictlyIncreasing([0] + Shifted(idx))
  {
  }

  /** Each selected position of the longer list holds the selected message. */
  lemma SelectKeepPositions(m: CompletionMessage, ms: seq<CompletionMessage>, idx: seq<nat>, out: seq<CompletionMessage>)
    requires |idx| == |out|
    requires forall j :: 0 <= j < |idx| ==> idx[j] < |ms| && out[j] == ms[idx[j]]
    ensures var idx', out', all := [0] + Shifted(idx), [m] + out, [m] + ms;
            forall j :: 0 <= j < |idx'| ==> idx'[j] < |all| && out'[j] == all[idx'[j]]
  {
  }

  /** The positions of the longer list that are selected are exactly its
      non-blank ones. */
  lemma SelectKeepComplete(m: CompletionMessage, ms: seq<CompletionMessage>, idx: seq<nat>)
    requires NotBlank(m.content)
    requires forall i {:trigger i in idx} :: 0 <= i < |ms| ==> (i in idx <==> NotBlank(ms[i].content))
    ensures var idx', all := [0] + Shifted(idx), [m] + ms;
            forall i {:trigger i in idx'} :: 0 <= i < |all| ==> (i in idx' <==> NotBlank(all[i].content))
  {
    var shifted := Shifted(idx);
    var idx', all := [0] + shifted, [m] + ms;
    forall i | 0 <= i < |all| ensures i in idx' <==> NotBlank(all[i].content) {
      assert i in idx' <==> i == 0 || i in shifted;
      if 0 < i {
        assert all[i] == ms[i - 1];
        if i - 1 in idx {
          var j :| 0 <= j < |idx| && idx[j] == i - 1;
          assert shifted[j] == i;
        }
      }
    }
  }

  /** The filter keeps the in-order subsequence of exactly the non-blank
      messages. */
  lemma {:induction false} KeepNonBlankSelects(ms: seq<CompletionMessage>) returns (idx: seq<nat>)
    ensures SelectsNonBlankOf(ms, idx, KeepNonBlank(ms))
  {
    if ms == [] {
      idx := [];
    } else {
      var tail := KeepNonBlankSelects(ms[1..]);
      assert [ms[0]] + ms[1..] == ms;
      if NotBlank(ms[0].content) {
        idx := SelectKeep(ms[0], ms[1..], tail, KeepNonBlank(ms[1..]));
      } else {
        idx := SelectSkip(ms[0], ms[1..], tail, KeepNonBlank(ms[1..]));
      }
    }
  }

  /** The message list is an in-order selection of the non-blank substituted
      turns. */
  lemma ToOpenAIIsNonBlankSubsequence(chat: ChatMessages, variables: map<string, string>, replace: Replacer)
    returns (idx: seq<nat>)
    ensures SelectsNonBlank(chat.messages, variables, replace, idx,
                            ToOpenAIChatCompletionMessages(chat, variables, replace))
  {
    idx := KeepNonBlankSelects(SubstituteAll(chat.messages, variables, replace));
  }

  /** Two strictly increasing index lists with the same members are equal. */
  lemma {:induction false} IncreasingSameMembersEqual(a: seq<nat>, b: seq<nat>)
    requires StrictlyIncreasing(a) && StrictlyIncreasing(b)
    requires forall x :: x in a <==> x in b
    ensures a == b
  {
    assert a != [] ==> a[0] in b;
    assert b != [] ==> b[0] in a;
    if a != [] && b != [] {
      assert a[0] == b[0] by {
        assert a[0] in b && b[0] in a;
      }
      forall x ensures x in a[1..] <==> x in b[1..] {
        assert x in a[1..] <==> x in a && x != a[0];
        assert x in b[1..] <==> x in b && x != b[0];
      }
      IncreasingSameMembersEqual(a[1..], b[1..]);
      assert a == [a[0]] + a[1..] && b == [b[0]] + b[1..];
    }
  }

  /** The in-order selection of the non-blank substituted turns determines
      the message list: `to_openai_chat_completion_messages` is the only
      list that is one. */
  lemma NonBlankSubsequenceIsUnique(chat: ChatMessages, variables: map<string, string>, replace: Replacer,
                                    idx: seq<nat>, out: seq<CompletionMessage>)
    requires SelectsNonBlank(chat.messages, variables, replace, idx, out)
    ensures out == ToOpenAIChatCompletionMessages(chat, variables, replace)
  {
    var turns := chat.messages;
    var kept := ToOpenAIIsNonBlankSubsequence(chat, variables, replace);
    forall x ensures x in idx <==> x in kept {
      if x in idx {
        var j :| 0 <= j < |idx| && idx[j] == x;
        assert x < |turns|;
      }
      if x in kept {
        var j :| 0 <= j < |kept| && kept[j] == x;
        assert x < |turns|;
      }
    }
    IncreasingSameMembersEqual(idx, kept);
  }

  /** Nothing is kept of messages that are all blank. */
  lemma {:induction false} KeepNonBlankOfBlank(ms: seq<CompletionMessage>)
    requires forall j :: 0 <= j < |ms| ==> !NotBlank(ms[j].content)
    ensures KeepNonBlank(ms) == []
  {
    if ms != [] {
      KeepNonBlankOfBlank(ms[1..]);
    }
  }

  /** Filtering distributes over concatenation. */
  lemma {:induction false} KeepNonBlankAppend(a: seq<CompletionMessage>, b: seq<CompletionMessage>)
    ensures KeepNonBlank(a + b) == KeepNonBlank(a) + KeepNonBlank(b)
  {
    if a != [] {
      assert (a + b)[1..] == a[1..] + b;
      KeepNonBlankAppend(a[1..], b);
    } else {
      assert a + b == b;
    }
  }

  // ---------------------------------------------------------------------
  // The text prompt.
  // ---------------------------------------------------------------------

  /** The separator `to_text_prompt` joins its segments with. */
  const Separator: string := "\n\n"

  /** The default speaker names of `to_text_prompt`. */
  const DefaultSystemName: string := "System"
  const DefaultUserName: string := "User"

  /** The name a turn is prefixed with: the system's name for a system turn,
      the user's name otherwise. */
  function Speaker(role: Role, systemName: string, userName: string): string
  {
    if role == System then systemName else userName
  }

  /** `"{name}: {content}"`. */
  function Labelled(name: string, content: string): string
  {
    name + ": " + content
  }

  /** The closing cue `"{system_name}:"`. */
  function Cue(systemName: string): string
  {
    systemName + ":"
  }

  /** What one turn adds to the text prompt: nothing when its substituted
      content is blank, its labelled content otherwise. */
  function TurnSegment(turn: ChatTurn, variables: map<string, string>, replace: Replacer,
                       systemName: string, userName: string): seq<string>
  {
    var content := replace(turn.content, variables);
    if NotBlank(content) then [Labelled(Speaker(turn.role, systemName, userName), content)] else []
  }

  /** The segments the turns add, in order. */
  function TurnSegments(turns: seq<ChatTurn>, variables: map<string, string>, replace: Replacer,
                        systemName: string, userName: string): seq<string>
  {
    if turns == [] then []
    else TurnSegments(turns[..|turns| - 1], variables, replace, systemName, userName)
         + TurnSegment(turns[|turns| - 1], variables, replace, systemName, userName)
  }

  /** The text prompt: the segments of the turns and the cue, joined. */
  function TextPrompt(chat: ChatMessages, variables: map<string, string>, replace: Replacer,
                      systemName: string, userName: string): string
  {
    Join(Separator, TurnSegments(chat.messages, variables, replace, systemName, userName) + [Cue(systemName)])
  }

  /** `ChatMessages.to_text_prompt(variables, system_name, user_name)`. */
  method ToTextPrompt(chat: ChatMessages, variables: map<string, string>, replace: Replacer,
                      systemName: string := DefaultSystemName, userName: string := DefaultUserName)
    returns (prompt: string)
    ensures prompt == TextPrompt(chat, variables, replace, systemName, userName)
  {
    var messages: seq<string> := [];
    for i := 0 to |chat.messages|
      invariant messages == TurnSegments(chat.messages[..i], variables, replace, systemName, userName)
    {
      var x := chat.messages[i];
      var content := replace(x.content, variables);
      var name := if x.role == System then systemName else userName;
      StripEmptyIffBlank(content);
      if Strip(content) != "" {
        messages := messages + [name + ": " + content];
      }
      assert chat.messages[..i + 1][..i] == chat.messages[..i];
    }
    assert chat.messages[..|chat.messages|] == chat.messages;
    messages := messages + [systemName + ":"];
    prompt := Join(Separator, messages);
  }

  /** The labelled form of each chat-completion message, in order. */
  function LabelAll(ms: seq<CompletionMessage>, systemName: string, userName: string): seq<string>
  {
    seq(|ms|, j requires 0 <= j < |ms| => Labelled(Speaker(ms[j].role, systemName, userName), ms[j].content))
  }

  /** The text prompt keeps exactly the turns the chat-completion list keeps,
      in the same order, each labelled with its speaker. */
  lemma {:induction false} TextKeepsCompletionTurns(chat: ChatMessages, variables: map<string, string>, replace: Replacer,
                                                    systemName: string, userName: string)
    decreases |chat.messages|
    ensures TurnSegments(chat.messages, variables, replace, systemName, userName)
            == LabelAll(ToOpenAIChatCompletionMessages(chat, variables, replace), systemName, userName)
  {
    var turns := chat.messages;
    if turns != [] {
      var init, last := turns[..|turns| - 1], turns[|turns| - 1];
      var subLast := Substitute(last, variables, replace);
      var keptInit := KeepNonBlank(SubstituteAll(init, variables, replace));
      calc {
        TurnSegments(turns, variables, replace, systemName, userName);
        TurnSegments(init, variables, replace, systemName, userName)
          + TurnSegment(last, variables, replace, systemName, userName);
        { TextKeepsCompletionTurns(ChatMessages(init), variables, replace, systemName, userName); }
        LabelAll(keptInit, systemName, userName) + TurnSegment(last, variables, replace, systemName, userName);
        { assert KeepNonBlank([subLast]) == if NotBlank(subLast.content) then [subLast] else []; }
        LabelAll(keptInit, systemName, userName) + LabelAll(KeepNonBlank([subLast]), systemName, userName);
        { LabelAllAppend(keptInit, KeepNonBlank([subLast]), systemName, userName); }
        LabelAll(keptInit + KeepNonBlank([subLast]), systemName, userName);
        { KeepNonBlankAppend(SubstituteAll(init, variables, replace), [subLast]); }
        LabelAll(KeepNonBlank(SubstituteAll(init, variables, replace) + [subLast]), systemName, userName);
        { assert SubstituteAll(turns, variables, replace) == SubstituteAll(init, variables, replace) + [subLast]; }
        LabelAll(ToOpenAIChatCompletionMessages(chat, variables, replace), systemName, userName);
      }
    }
  }

  /** Labelling distributes over concatenation. */
  lemma LabelAllAppend(a: seq<CompletionMessage>, b: seq<CompletionMessage>, systemName: string, userName: string)
    ensures LabelAll(a + b, systemName, userName) == LabelAll(a, systemName, userName) + LabelAll(b, systemName, userName)
  {
  }

  /** The text prompt joins, with the separator, one segment per message of
      the chat-completion list, in order, and then the cue. */
  lemma TextPromptSegments(chat: ChatMessages, variables: map<string, string>, replace: Replacer,
                           systemName: string, userName: string)
    ensures TextPrompt(chat, variables, replace, systemName, userName)
            == Join(Separator, LabelAll(ToOpenAIChatCompletionMessages(chat, variables, replace), systemName, userName)
                               + [Cue(systemName)])
  {
    TextKeepsCompletionTurns(chat, variables, replace, systemName, userName);
  }

  /** The text prompt has one segment per kept turn and then the cue: it is
      the cue alone when no turn is kept, and otherwise the kept turns, the
      separator and the cue. */
  lemma TextPromptShape(chat: ChatMessages, variables: map<string, string>, replace: Replacer,
                        systemName: string, userName: string)
    ensures var kept := LabelAll(ToOpenAIChatCompletionMessages(chat, variables, replace), systemName, userName);
            TextPrompt(chat, variables, replace, systemName, userName)
            == if kept == [] then Cue(systemName)
               else Join(Separator, kept) + Separator + Cue(systemName)
  {
    TextKeepsCompletionTurns(chat, variables, replace, systemName, userName);
    var kept := LabelAll(ToOpenAIChatCompletionMessages(chat, variables, replace), systemName, userName);
    if kept == [] {
      assert kept + [Cue(systemName)] == [Cue(systemName)];
    } else {
      JoinSnoc(Separator, kept, Cue(systemName));
    }
  }

  /** The text prompt always ends with the cue `"{system_name}:"`. */
  lemma TextPromptEndsWithCue(chat: ChatMessages, variables: map<string, string>, replace: Replacer,
                              systemName: string, userName: string)
    ensures EndsWith(TextPrompt(chat, variables, replace, systemName, userName), Cue(systemName))
  {
    JoinEndsWithLast(Separator, TurnSegments(chat.messages, variables, replace, systemName, userName) + [Cue(systemName)]);
  }

  /** With the default names and no turn whose substituted content is
      non-blank (in particular with no turns at all), the text prompt is
      "System:". */
  lemma BlankTemplateGivesCue(chat: ChatMessages, variables: map<string, string>, replace: Replacer)
    requires forall t :: t in chat.messages ==> !NotBlank(replace(t.content, variables))
    ensures TextPrompt(chat, variables, replace, DefaultSystemName, DefaultUserName) == "System:"
  {
    var ms := SubstituteAll(chat.messages, variables, replace);
    assert forall j :: 0 <= j < |ms| ==> chat.messages[j] in chat.messages;
    KeepNonBlankOfBlank(ms);
    TextPromptShape(chat, variables, replace, DefaultSystemName, DefaultUserName);
  }
}
