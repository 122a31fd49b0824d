/**
 * A graph that meets the definition, so that what is proved about well-formed graphs is about
 * something: joining a list sends one mail and ends.
 */
module Witness {
  import opened Prelude
  import opened Graphs
  import opened Configs
  import opened Documents
  import opened Validation
  import opened WellFormed
  import Cycles

  const LIST: string := seq(32, _ => '1')
  const TEMPLATE: string := seq(32, _ => '2')

  const JOIN: Node := Node(Id("join"), Trigger, "", Obj(map["type" := Str("list_joined"), "list_id" := Str(LIST)]))
  const MAIL: Node :=
    Node(Id("mail"), SendEmail, "",
         Obj(map["template_id" := Str(TEMPLATE), "track_opens" := Bool(true), "track_clicks" := Bool(true)]))
  const DONE: Node := Node(Id("done"), Exit, "", Obj(map[]))

  const WELCOME: Graph :=
    Graph([JOIN, MAIL, DONE],
          [Edge(Id("e1"), Id("join"), Id("mail"), None), Edge(Id("e2"), Id("mail"), Id("done"), None)])

  const REFERENCES: References := References(Some({LIST}), Some({TEMPLATE}))
  const LIBRARY: Library := Library(map[], {})

  lemma IdsAreValues()
    ensures UuidValue(LIST) == Some(LIST) && UuidValue(TEMPLATE) == Some(TEMPLATE)
  {
    assert Lowered(LIST) == LIST && Lowered(TEMPLATE) == TEMPLATE;
  }

  lemma JoinDecodes()
    ensures DecodeTrigger(JOIN.config) == Some(TriggerConfig("list_joined", LIST, "", ""))
  {
    IdsAreValues();
  }

  lemma JoinIsFine()
    ensures CheckConfig(JOIN, REFERENCES, LIBRARY) == Fine
  {
    JoinDecodes();
    assert LIST[0] != NIL[0];
  }

  lemma MailIsFine()
    ensures CheckConfig(MAIL, REFERENCES, LIBRARY) == Fine
  {
    IdsAreValues();
    assert TEMPLATE[0] != NIL[0];
  }

  lemma DoneIsFine()
    ensures CheckConfig(DONE, REFERENCES, LIBRARY) == Fine
  {
  }

  lemma IdsDiffer()
    ensures Id("join") != Id("mail") && Id("join") != Id("done") && Id("mail") != Id("done") && Id("e1") != Id("e2")
  {
    assert "join"[0] != "mail"[0] && "join"[0] != "done"[0] && "mail"[0] != "done"[0] && "e1"[1] != "e2"[1];
  }

  lemma EdgesOf()
    ensures Leaving(WELCOME.edges, Id("join")) == [WELCOME.edges[0]]
    ensures Leaving(WELCOME.edges, Id("mail")) == [WELCOME.edges[1]]
    ensures Leaving(WELCOME.edges, Id("done")) == []
    ensures Entering(WELCOME.edges, Id("join")) == []
  {
    IdsDiffer();
    var edges := WELCOME.edges;
    assert edges[..1] == [edges[0]] && edges[..0] == [] && edges[..1][..0] == [];
  }

  lemma TriggersOf()
    ensures Triggers(WELCOME.nodes) == [Id("join")]
  {
    var nodes := WELCOME.nodes;
    assert nodes[..2] == [JOIN, MAIL] && [JOIN, MAIL][..1] == [JOIN] && [JOIN][..0] == [];
    assert Triggers([JOIN]) == [Id("join")];
    assert Triggers([JOIN, MAIL]) == [Id("join")];
  }

  lemma IsAcyclic()
    ensures !Cyclic(Arcs(WELCOME.edges))
  {
    IdsDiffer();
    var edges, order := WELCOME.edges, [Id("join"), Id("mail"), Id("done")];
    forall e, j | e in edges && 0 <= j < |order| && order[j] == e.to
      ensures e.from in order[..j]
    {
      assert order[..1] == [Id("join")] && order[..2] == [Id("join"), Id("mail")];
      assert e == edges[0] || e == edges[1];
    }
    forall e | e in edges
      ensures e.to in order
    {
      assert e == edges[0] || e == edges[1];
      assert order[1] == edges[0].to && order[2] == edges[1].to;
    }
    Cycles.OrderedMeansAcyclic(edges, order);
  }

  lemma IsReachable()
    ensures forall n :: n in WELCOME.nodes ==> Reaches(Arcs(WELCOME.edges), Id("join"), n.id)
  {
    var arcs, edges := Arcs(WELCOME.edges), WELCOME.edges;
    assert edges[0] in edges && edges[1] in edges;
    assert Arc(Id("join"), Id("mail")) in arcs && Arc(Id("mail"), Id("done")) in arcs;
    assert WalkBetween(arcs, Id("join"), Id("join"), [Id("join")]);
    WalkExtends(arcs, Id("join"), Id("join"), Id("mail"));
    WalkExtends(arcs, Id("join"), Id("mail"), Id("done"));
  }

  lemma IdsAreOk()
    ensures IdOk(Id("join")) && IdOk(Id("mail")) && IdOk(Id("done"))
  {
  }

  lemma NodeIsSound(i: int)
    requires 0 <= i < 3
    ensures var n := WELCOME.nodes[i]; IdOk(n.id) && |n.name| <= 200 && SoundConfig(n, REFERENCES, LIBRARY)
  {
    hide CheckConfig, Sound, Unlisted, Untemplated, IdOk;
    IdsAreOk();
    CheckMeans(WELCOME.nodes[i], REFERENCES, LIBRARY);
    if i == 0 {
      JoinIsFine();
    } else if i == 1 {
      MailIsFine();
    } else {
      DoneIsFine();
    }
  }

  lemma NodesAreSound()
    ensures SoundNodes(WELCOME, REFERENCES, LIBRARY)
  {
    forall i | 0 <= i < |WELCOME.nodes|
      ensures var n := WELCOME.nodes[i]; IdOk(n.id) && |n.name| <= 200 && SoundConfig(n, REFERENCES, LIBRARY)
    {
      NodeIsSound(i);
    }
    IdsDiffer();
  }

  lemma EdgesAreSound()
    ensures SoundEdges(WELCOME)
  {
    IdsDiffer();
    var nodes, edges := WELCOME.nodes, WELCOME.edges;
    assert nodes[0].id == edges[0].from && nodes[1].id == edges[0].to == edges[1].from && nodes[2].id == edges[1].to;
    assert Known(nodes, edges[0].from) && Known(nodes, edges[0].to) && Known(nodes, edges[1].to);
  }

  lemma NodesAreShaped(i: int)
    requires 0 <= i < 3
    ensures Shaped(WELCOME.nodes[i], Leaving(WELCOME.edges, WELCOME.nodes[i].id))
    ensures SoundReference(WELCOME, REFERENCES, LIBRARY, i)
  {
    EdgesOf();
    assert WELCOME.nodes[i] in {JOIN, MAIL, DONE};
  }

  lemma WelcomeIsWellFormed()
    ensures IsWellFormed(WELCOME, REFERENCES, LIBRARY)
  {
    NodesAreSound();
    EdgesAreSound();
    EdgesOf();
    TriggersOf();
    IsAcyclic();
    IsReachable();
    forall i | 0 <= i < |WELCOME.nodes|
      ensures Shaped(WELCOME.nodes[i], Leaving(WELCOME.edges, WELCOME.nodes[i].id))
      ensures Reaches(Arcs(WELCOME.edges), Triggers(WELCOME.nodes)[0], WELCOME.nodes[i].id)
      ensures SoundReference(WELCOME, REFERENCES, LIBRARY, i)
    {
      NodesAreShaped(i);
      assert WELCOME.nodes[i] in WELCOME.nodes;
    }
  }
}
