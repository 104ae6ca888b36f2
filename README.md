# SmartDataLake datasets: a Dafny model of the graph builders, exporters and OSMWrangle core

The SmartDataLake `datasets` repository turns open data sources into property graphs and
RDF-ready tables. This project models its core in Dafny and proves properties of the model.

- **Property graphs.** `Graphs` models a networkx `MultiDiGraph`: nodes in insertion
  order with attribute dictionaries, plus parallel edges in order. It models the calls the
  builders make: `add_node`, `add_edge`, `remove_node`, and attribute updates and deletions.
  `RowCalls` models the per-row pattern they all share. A row's node and edge calls read
  cells of a pandas row (`Values`), build keys such as `"CW_C_{}"`, raise `KeyError` or
  `ValueError` for an unreadable cell, and stop the row's work at the first raise.
- **Graph builders.**
  - `GdeltGraph` and `GdeltV2Graph` build the GDELT graphs.
  - `CorpwatchGraph` builds the CorpWatch graph, using `Grouping` for pandas `groupby`.
  - `WikidataGraph` builds the Wikidata graph, including the owner-twin cleanup.
  - Each builder is a class whose methods update the graph in place. Each method is proved
    equal to a pure specification over rows.
  - The lemma modules (`*Facts`, `WikidataInvariant`, `WikidataFindings`) state what each
    row does to the graph.
- **Statistics and exporters.**
  - `GraphStatistics` counts nodes and edges.
  - `GraphmlWriter` writes GraphML by hand.
  - `WordCleaning` and `GraphmlCleaning` are the attribute cleaners that run before export.
  - `NetworkxImport` and `GpickleToGraphml` are the importer base class and the converter.
  - `GdeltV2Export` covers the GDELT v2 CSV exports.
  - `Neo4jImport` imports a graph into Neo4j as Cypher statements. The database session is
    an object whose acceptance of a statement is a parameter.
- **Direct Cypher import.** `WdImport` and `CwImport` build Cypher `MERGE` statements
  directly from the Wikidata and CorpWatch tables.
- **Wikidata dump pipeline.**
  - `WikidataFilter` routes the lines of a Wikidata dump into per-type files by their
    `P31` claims.
  - `WikidataCleaner` turns the filtered entities into CSV rows. It picks the English
    label or else the most frequent one, and writes one column group per claim code.
- **OSMWrangle (Java).**
  - `OsmCategory` and `OsmClassification` load a category hierarchy from YAML or CSV and
    look categories up.
  - `OsmConfiguration` reads the settings, and `OsmAssistant` holds the shared helpers it uses.
  - `OsmCsvConverter` reads the attribute mapping and turns one OSM record into a
    delimiter-separated row.
  - `OsmXml` models `OsmXmlToRdf`, the SAX state machine over an OSM XML file: node, way and
    relation indices, the rescans, and the second pass over incomplete relations. Its input
    is a sequence of element events.
- **Support modules.** `Text`, `Values`, `OrderedDicts` (insertion-ordered dictionaries)
  and `Wrappers` hold shared helpers.

Each row below names a member whose contract states the property. Members
inside a class are named `Module.Class.Member`.

## Model

| member | source | states |
|---|---|---|
| Graphs.EmptyGraph | gdelt/gdelt_networkx.py:12-13 | a fresh `MultiDiGraph` is well formed and has no node and no edge |
| Graphs.NodeAdded | gdelt/gdelt_networkx.py:70-85 | `add_node`: a new key goes last with exactly the given attributes; an existing key keeps its place and its other attributes while the given ones overwrite; edges untouched; well-formedness kept |
| Graphs.WithNode | gdelt/gdelt_networkx.py:102-107 | the implicit endpoint creation of `add_edge`: the node is present afterwards, an existing one is unchanged, a missing one is appended with no attributes |
| Graphs.EdgeAdded | gdelt/gdelt_networkx.py:102-107 | `add_edge`: missing endpoints are created (source before target), the new edge is appended after all existing edges with the given attributes, and every existing node keeps its attributes |
| Graphs.EdgesAvoiding | wikidata/wikidata_networkx.py:198 | the edges kept by a node removal are exactly those not touching the node, never more than there were |
| Graphs.EdgesAvoidingAppend | wikidata/wikidata_networkx.py:198 | dropping a node's edges works piece by piece over any split of the edge list, so the kept edges stay in their order |
| Graphs.EdgesAvoidingNone | wikidata/wikidata_networkx.py:198 | a run of edges none of which touches the node is kept whole, in order and with its repetitions |
| Graphs.NodeRemoved | wikidata/wikidata_networkx.py:198-201 | `remove_node`: it fails exactly when the node is missing (NetworkXError); otherwise the node keys are the old keys without the node and the edges are `EdgesAvoiding` of the old edges |
| Graphs.NodeRemovedInOrder | wikidata/wikidata_networkx.py:198-201 | for any split of the node keys and of the edges, the removal acts on each part separately; a part without the node, or without an edge touching it, is kept exactly, so the remaining nodes and edges keep their order |
| OrderedDicts.Dict.Remove | wikidata/wikidata_networkx.py:198 | deleting a present key removes exactly that key and keeps the other keys in their order, with their values |
| OrderedDicts.WithoutAppend | wikidata/wikidata_networkx.py:198 | deleting a key works piece by piece over any split of the key order |
| OrderedDicts.WithoutAbsent | wikidata/wikidata_networkx.py:198 | deleting a key changes no run of keys that does not hold it |
| Graphs.AttrAfterAddNode | wikidata/wikidata_networkx.py:126-137 | after `add_node`, an attribute it passes has the passed value and any other attribute of any node is unchanged |
| Graphs.AttrAfterAddEdge | gdelt/gdelt_networkx.py:136-139 | `add_edge` leaves every existing node attribute unchanged |
| Graphs.AttrSet | util/gpickle_to_graphml.py:17-23 | `G.nodes[n][a] = v`: that attribute becomes `v`, every other attribute, node and edge is unchanged |
| Graphs.AttrDeleted | util/gpickle_to_graphml.py:26-27 | `del G.nodes[n][a]`: that attribute is gone, everything else is unchanged |
| Graphs.AddNodeIdempotent | wikidata/wikidata_networkx.py:169-172 | adding the same node with the same attributes a second time leaves the graph as after the first |
| Graphs.UpdateAgain | wikidata/wikidata_networkx.py:143-151 | an attribute update repeated with the same dictionary changes nothing |
| Graphs.AddEdgeTwiceIsParallel | wikidata/wikidata_networkx.py:173-178 | adding an edge twice appends two identical parallel edges after the existing ones |
| Graphs.Successors | gdelt_v2/gdelt_networkx.py:93-100 | `neighbors(n)`: exactly the targets of the edges leaving `n`, each listed once |
| Graphs.IndexOf | gdelt_v2/gdelt_networkx.py:93-100 | the position of the first occurrence of a value |
| Graphs.IndexOfPrefix | gdelt_v2/gdelt_networkx.py:93-100 | a value's first occurrence is unchanged by appending more values |
| Graphs.DistinctInOrder | gdelt_v2/gdelt_networkx.py:93-100 | removing repetitions keeps the values in the order of their first occurrences |
| Graphs.TargetsAppend | gdelt_v2/gdelt_networkx.py:93-100 | the targets of a split edge list are the targets of its parts, in order |
| Graphs.SuccessorsInOrder | gdelt_v2/gdelt_networkx.py:93-100 | `neighbors(n)` lists the successors in the order in which edges leaving `n` first reach them |
| Graphs.EdgeOrderCount | util/gpickle_to_neo4j.py:74 | iterating `edges.data()` meets every edge once: for every property, as many iterated edges have it as edges of the graph |
| Graphs.EdgeOrderLength | util/gpickle_to_graphml.py:72 | the iteration yields exactly as many edges as the graph holds |
| Graphs.ApplyOp | gdelt/gdelt_networkx.py:70-107 | one recorded `add_node` or `add_edge` call keeps the graph well formed |
| Graphs.ApplyOps | gdelt/gdelt_networkx.py:62-139 | a row's calls, applied in order, keep the graph well formed; their effect is stated by the `ApplyOps*` lemmas below |
| Graphs.ApplyOpsEdges | gdelt/gdelt_networkx.py:62-139 | a row's calls only append edges, and exactly the edges they name, in order |
| Graphs.ApplyOpsAttrUntouched | gdelt/gdelt_networkx.py:62-139 | an attribute that no call of a row sets keeps its value |
| Graphs.ApplyOpsAttrWritten | gdelt/gdelt_networkx.py:62-139 | an attribute ends up as `v` when every call that sets it sets `v`, and one of them does or it already was `v` |
| Graphs.LastWriter | wikidata/wikidata_networkx.py:143-151 | the last call that sets an attribute decides its value |
| Graphs.NodeThenEdge | gdelt/gdelt_networkx.py:98-107 | a node call then an edge call: one edge appended, both endpoints present, only the called node's attributes written |
| Graphs.NodesThenEdge | corpwatch/corpwatch_networkx.py:150-170 | two node calls then an edge from the first node to the second: one edge appended between them, each node carrying its call's attributes |
| Graphs.ApplyOpsKeepsNodes | gdelt/gdelt_networkx.py:62-139 | calls that only add never lose a node |
| Graphs.Ingest | gdelt/gdelt_networkx.py:62 | rows are processed in order and the first row that raises ends the run with its error |
| Graphs.IngestAppend | gdelt/gdelt_networkx.py:62 | processing two batches one after the other equals processing them together, unless the first raised |
| Graphs.IngestStopsAtFailure | gdelt/gdelt_networkx.py:62 | rows after a raising row are never processed |
| Graphs.PropertyGraph.constructor | gdelt/gdelt_networkx.py:12-13 | the graph object starts empty |
| Graphs.PropertyGraph.AddNode | gdelt/gdelt_networkx.py:70-85 | the object's state becomes `NodeAdded` of the old state |
| Graphs.PropertyGraph.AddEdge | gdelt/gdelt_networkx.py:102-107 | the object's state becomes `EdgeAdded` of the old state |
| Graphs.PropertyGraph.RemoveNode | wikidata/wikidata_networkx.py:198 | reports NetworkXError exactly for a missing node and then changes nothing; otherwise the state becomes `NodeRemoved` of the old state |
| Graphs.PropertyGraph.SetAttr | util/gpickle_to_graphml.py:17-23 | sets one attribute of an existing node as `AttrSet` describes |
| Graphs.PropertyGraph.DelAttr | util/gpickle_to_graphml.py:26-27 | deletes one existing attribute as `AttrDeleted` describes |
| Graphs.PropertyGraph.Apply | gdelt/gdelt_networkx.py:62-139 | carries out one row's calls: the new state is `ApplyOps` of the old one |
| Graphs.PropertyGraph.Run | gdelt/gdelt_networkx.py:62-139 | carries out the rows in turn and stops at the first that raised: state and outcome equal `Ingest` of the old state |
| RowCalls.Kwargs | gdelt/gdelt_networkx.py:70-85 | keyword arguments are read left to right and the first unreadable one raises |
| RowCalls.KwargsValue | gdelt/gdelt_networkx.py:70-85 | each keyword argument ends up in the attribute dictionary with its value |
| RowCalls.KeyOf | gdelt/gdelt_networkx.py:70 | `"<prefix>{}_{}".format(...)`: the key is the prefix followed by the parts joined by `_`; an unreadable part raises |
| RowCalls.KeyOfOneIff | corpwatch/corpwatch_networkx.py:150 | keys made of one prefix and one part are equal exactly when the parts print alike |
| RowCalls.NodeCallWrites | gdelt/gdelt_networkx.py:70-85 | a node call followed by calls that leave its node alone: each keyword argument is the node's attribute afterwards |
| RowCalls.LinkedEffect | corpwatch/corpwatch_networkx.py:150-170 | a two-nodes-and-an-edge row raises exactly when one of its arguments cannot be read; otherwise it appends one edge, adds at most its two endpoints and writes the keyword arguments |
| RowCalls.LinkedPlainEffect | corpwatch/corpwatch_networkx.py:150-170 | the same for keys made of a prefix and one column each, with prefixes that differ |
| RowCalls.NodeAndEdgeEffect | gdelt/gdelt_networkx.py:98-107 | a node then an edge between two keys of the row: raises exactly when an argument cannot be read; otherwise one edge appended and the node's keyword arguments written |
| RowCalls.PrefixesApart | gdelt/gdelt_networkx.py:98-105 | keys whose prefixes differ at some position never meet |
| Grouping.GroupBy | corpwatch/corpwatch_networkx.py:136 | one group per non-missing key, holding its rows' values in order (see Left out for key order) |
| Grouping.GroupByMeaning | corpwatch/corpwatch_networkx.py:136 | exactly the non-missing keys that occur have a group, and each group holds the values of its key's rows, in order |
| Grouping.KeyValuePairs | corpwatch/corpwatch_networkx.py:136 | the key and value cells of every row, or KeyError for a missing column |
| Grouping.GroupRows | corpwatch/corpwatch_networkx.py:136-137 | `groupby(...).agg(...).reset_index()` before aggregation: one (key, values) row per group, none empty |
| GraphStatistics.NodeStatisticsMeaning | gdelt/gdelt_networkx.py:27-35 | the node counter gives, for each label, the number of nodes from the source that carry it, zero for a label it never saw |
| GraphStatistics.ScopedLabelsCount | wikidata/wikidata_networkx.py:76-87 | the unlabeled counter counts only nodes from the source with `nlabel` and without `label` |
| GraphStatistics.EdgeTriples | gdelt/gdelt_networkx.py:37-47 | the counted key of each edge from the source is `"<elabel>_<nlabel source>_<nlabel target>"`; an endpoint without `nlabel` raises KeyError |
| GraphStatistics.EdgeStatisticsTotal | gdelt/gdelt_networkx.py:37-48 | the edge counts add up to the number of counted edges |
| GraphStatistics.EdgeTriplesSucceed | gdelt/gdelt_networkx.py:37-47 | when every endpoint carries `nlabel`, the edge counter never raises |
| GraphStatistics.NodesIds | gdelt/gdelt_networkx.py:15-20 | `get_nodes_ids`: exactly the keys, in node order, of the nodes from the source whose attribute equals the value |
| GraphStatistics.EdgeValues | gdelt/gdelt_networkx.py:54-58 | `get_edges_values`: the (attribute, source label, target label) triple of every edge; a missing attribute or label raises KeyError |
| GraphStatistics.NodeValues | util/networkx_importer.py:52-55 | the set of values the attribute takes over the nodes that have it, and nothing else |
| GraphStatistics.StatisticsCache.constructor | gdelt/gdelt_networkx.py:10-13 | the importer starts with no cached counter |
| GraphStatistics.StatisticsCache.NodesStatistics | gdelt/gdelt_networkx.py:27-35 | recounts only when `choice` is 0 (then the answer is the number of counted nodes with that label), otherwise reuses the cached counter; a lookup before any count fails |
| GraphStatistics.StatisticsCache.EdgesStatistics | gdelt/gdelt_networkx.py:37-48 | recounts only when `choice` is 0 (a counting error is returned and keeps the old cache), then returns the cached count of `"<val>_<_from>_<_to>"`, zero when absent |
| GdeltGraph.TonePairs | gdelt/gdelt_networkx.py:77-83 | the seven tone keywords, each paired with the tone part of its position |
| GdeltGraph.Width | gdelt/gdelt_networkx.py:111-116 | the location table's column count: no entry is wider, and some entry is exactly that wide |
| GdeltGraph.Padded | gdelt/gdelt_networkx.py:111-115 | a short entry becomes a table row padded with None up to the table width |
| GdeltGraph.LocationTable | gdelt/gdelt_networkx.py:111-115 | the location table has one row per `;` entry, each as wide as the widest entry and holding that entry's `#` pieces, padded |
| GdeltGraph.NodesValues | gdelt/gdelt_networkx.py:50-52 | `get_nodes_values`: succeeds exactly when every node has the attribute, and is then the set of their values |
| GdeltGraph.Importer.constructor | gdelt/gdelt_networkx.py:12-13 | the importer starts with an empty graph and no cached counters |
| GdeltGraph.Importer.CreateGraph | gdelt/gdelt_networkx.py:60-139 | `_create_graph`: the graph and the raised error equal `Ingest` of the per-record steps (tone, article, three mention columns, locations) |
| GdeltFacts.MissingTone | gdelt/gdelt_networkx.py:66-69 | a missing tone cell gives seven zeros |
| GdeltFacts.ToneOfJoin | gdelt/gdelt_networkx.py:66-67 | a tone written as comma-separated parts gives those parts back |
| GdeltFacts.ArticleCallMeaning | gdelt/gdelt_networkx.py:70-85 | the article call succeeds exactly when every column it reads is present and the tone has at least seven parts; then it is `add_node("GD_A_<GKGRECORDID>", …)` with the head columns, the seven tone pairs and the tail columns |
| GdeltFacts.ArticleTone | gdelt/gdelt_networkx.py:77-83 | every tone part is an attribute of the article under its own keyword |
| GdeltFacts.FirstEntryIgnoresRest | gdelt/gdelt_networkx.py:96 | only the first `;` entry of a mention column is read (`temp[:1]`) |
| GdeltFacts.FirstEntryPair | gdelt/gdelt_networkx.py:94-96 | an entry `name,position` unpacks into its name and its position |
| GdeltFacts.MentionStepMeaning | gdelt/gdelt_networkx.py:91-107 | a mention column succeeds exactly when it is present and either missing or a string whose first entry unpacks into two values; it adds nothing for a missing cell or an empty name, and otherwise the mention node followed by the article's edge to it |
| GdeltFacts.MentionKeysApart | gdelt/gdelt_networkx.py:70-125 | Theme, Person and Organization keys never equal an article key, a location key, or a mention key of another kind |
| GdeltFacts.MentionLeavesArticle | gdelt/gdelt_networkx.py:98-107 | a mention never writes the article's node |
| GdeltFacts.FullTable | gdelt/gdelt_networkx.py:111-121 | when every entry has nine `#` parts the table is exactly those parts |
| GdeltFacts.TableEdges | gdelt/gdelt_networkx.py:123-139 | the location rows add one MENTIONS edge per row, from the article to `GD_L_<FeatureID>`, in order |
| GdeltFacts.TableLeavesArticle | gdelt/gdelt_networkx.py:123-139 | the location rows only write location nodes |
| GdeltFacts.LocationsMeaning | gdelt/gdelt_networkx.py:109-139 | a present locations cell raises only when it is not a string; it adds one edge per entry when the table has exactly nine columns and nothing otherwise (`continue`) |
| GdeltFacts.ShortEntryKey | gdelt/gdelt_networkx.py:111-125 | an entry shorter than the widest is padded with None, so its location node is keyed `GD_L_None` |
| GdeltFacts.RecordOps | gdelt/gdelt_networkx.py:62-139 | a record that does not raise is the article call, the three mention parts and the locations, in this order |
| GdeltFacts.RecordKeepsArticle | gdelt/gdelt_networkx.py:70-139 | after a record that did not raise, the article node carries each of the seven tone parts under its keyword |
| GdeltFacts.ArticleWritten | gdelt/gdelt_networkx.py:70-85 | a node call's attribute survives later calls that leave the node alone |
| GdeltV2Graph.TableOps | gdelt_v2/gdelt_networkx.py:57-68 | the location rows give, per row, the location node and the ART_LOC edge, in order |
| GdeltV2Graph.NodeLabels | gdelt_v2/gdelt_networkx.py:72 | `nodes(data='nlabel')`: one entry per node, its label or None |
| GdeltV2Graph.EdgeLabels | gdelt_v2/gdelt_networkx.py:78 | `edges(data='elabel')`: one entry per edge, its label or None |
| GdeltV2Graph.Statistics | gdelt_v2/gdelt_networkx.py:70-82 | `print_statistics` succeeds exactly when the graph has a node and an edge (`zip(*…)` of nothing cannot unpack), and then reports the node and edge totals |
| GdeltV2Graph.StartingWith | gdelt_v2/gdelt_networkx.py:93 | the neighbours whose key starts with the letter, in neighbour order |
| GdeltV2Graph.Stripped | gdelt_v2/gdelt_networkx.py:93 | `y[2:]` of each neighbour, in order |
| GdeltV2Graph.LocationTexts | gdelt_v2/gdelt_networkx.py:100-101 | one text per location neighbour, or the error of the first one whose values are not all strings |
| GdeltV2Graph.ArtNodes | gdelt_v2/gdelt_networkx.py:90 | `x[x.nlabel=='ART']`: exactly the ART nodes, in node order |
| GdeltV2Graph.Lines | gdelt_v2/gdelt_networkx.py:84-102 | one exported line per article given |
| GdeltV2Graph.Importer.constructor | gdelt_v2/gdelt_networkx.py:10-11 | the importer starts with an empty graph |
| GdeltV2Graph.Importer.CreateGraph | gdelt_v2/gdelt_networkx.py:13-68 | `create_graph`: graph and raised error equal `Ingest` of the per-record steps (article, four selections, locations) |
| GdeltV2Graph.Importer.PrintStatistics | gdelt_v2/gdelt_networkx.py:70-82 | returns `Statistics` of the current graph and changes nothing |
| GdeltV2Graph.Importer.ExportFilteredCsv | gdelt_v2/gdelt_networkx.py:84-102 | returns `FilteredExport` of the current graph and changes nothing |
| GdeltV2Facts.ArticleCallMeaning | gdelt_v2/gdelt_networkx.py:22-27 | the article call succeeds exactly when GKGRECORDID and DOCUMENTIDENTIFIER are present and the tone has at least three parts; then it is `add_node("A_<id>", nlabel='ART', aid, url, pos=tone[1], neg=tone[2])` |
| GdeltV2Facts.MissingToneScores | gdelt_v2/gdelt_networkx.py:18-21 | without a tone the article's scores are zero |
| GdeltV2Facts.ItemOpsEdges | gdelt_v2/gdelt_networkx.py:36-44 | a selection adds one edge per non-empty item, in order, and nothing else |
| GdeltV2Facts.ItemOpsNodes | gdelt_v2/gdelt_networkx.py:40-41 | a selection only writes nodes keyed by its initial and a non-empty item, labelled with its label and named by the item |
| GdeltV2Facts.SelectionMeaning | gdelt_v2/gdelt_networkx.py:34-44 | a selected column raises only when absent or not a string; a present list adds one edge per non-empty item |
| GdeltV2Facts.SelectionOfJoin | gdelt_v2/gdelt_networkx.py:36-44 | items written as `a;b;…` become exactly one edge each, to `<initial>_<item>`, in the listed order |
| GdeltV2Facts.ItemKeysApart | gdelt_v2/gdelt_networkx.py:22-58 | items of different selections never share a node, nor an article's or a location's key |
| GdeltV2Facts.TableEdges | gdelt_v2/gdelt_networkx.py:57-68 | one ART_LOC edge per table row, to `L_<FeatureID>`, in order |
| GdeltV2Facts.LocationsMeaning | gdelt_v2/gdelt_networkx.py:46-68 | a present locations cell adds one edge per entry when its table has exactly seven columns, none otherwise |
| GdeltV2Facts.StatisticsAddUp | gdelt_v2/gdelt_networkx.py:70-82 | the per-label counts add up to the printed node and edge totals |
| GdeltV2Facts.NodeCount | gdelt_v2/gdelt_networkx.py:72-75 | each printed count is the number of nodes with that label |
| GdeltV2Facts.StripItemKey | gdelt_v2/gdelt_networkx.py:93 | `y[2:]` removes exactly the prefix the builder put on an item key |
| GdeltV2Facts.GroupRoundTrip | gdelt_v2/gdelt_networkx.py:93-96 | a group column splits back into the stripped neighbour names when there is at least one and none contains `;` |
| GdeltV2Facts.LinesOfArticles | gdelt_v2/gdelt_networkx.py:84-91 | the export's `i`-th line is the line of the `i`-th article and carries its `aid` and `url` |
| GdeltV2Facts.ExportKeepsArticles | gdelt_v2/gdelt_networkx.py:84-102 | the export has one line per ART node |
| GdeltV2Export.WordsSucceed | gdelt_v2/utils.py:10-18 | an article's words are read without exception exactly when every location neighbour has a string under the attribute read |
| GdeltV2Export.WordsAreLower | gdelt_v2/utils.py:16-18 | the words contain no capital letter |
| GdeltV2Export.WordsCount | gdelt_v2/utils.py:12-18 | one word per neighbour that is not a source `S_` |
| GdeltV2Export.TextIsLowerWithoutCommas | gdelt_v2/utils.py:19 | an article's text is lower-case and free of commas |
| GdeltV2Export.AllRowsMeaning | gdelt_v2/utils.py:9-19 | every article gets its row, keyed by its key without `A_`, every row is one article's, and nothing else is listed |
| GdeltV2Export.ArticleKeysApart | gdelt_v2/utils.py:19 | two articles never share a row key |
| GdeltV2Export.AllRowsCount | gdelt_v2/utils.py:9-19 | as many rows as articles |
| GdeltV2Export.AllRowsSucceed | gdelt_v2/utils.py:7-21 | the export succeeds exactly when every location neighbour of every article has a string under the attribute read |
| GdeltV2Export.WordsFailOnKey | gdelt_v2/utils.py:16 | with no node holding the attribute, reading it raises `KeyError` of that attribute and nothing else |
| GdeltV2Export.RecordAvoids | gdelt_v2/gdelt_networkx.py:22-68 | no record of the second builder gives a node a `full_name` attribute |
| GdeltV2Export.BuiltGraphsLackFullName | gdelt_v2/gdelt_networkx.py:13-68 | graphs built by the second builder never hold `full_name` |
| GdeltV2Export.AsWrittenExportFails | gdelt_v2/utils.py:16 | as written, the export raises `KeyError('full_name')` on every built graph where some article has a location |
| GdeltV2Export.ExportFailsWithout | gdelt_v2/utils.py:16 | one article with one location is enough for the as-written export to raise |
| GdeltV2Export.CorrectedExportSucceeds | gdelt_v2/utils.py:7-21 | reading the location's `name`, the export succeeds on every graph whose article locations carry a string name |
| GdeltV2Export.ArticleWords | gdelt_v2/utils.py:11-19 | the inner loop computes the article text of `AllRows`, reading each location's `name` |
| GdeltV2Export.ExportAllCsv | gdelt_v2/utils.py:7-21 | the loop over all nodes computes the rows of `AllRows`, in node order, or the exception raised (corrected; see Findings) |
| GdeltV2Export.Labelled | gdelt_v2/utils.py:29 | `x[x.nlabel == label]`: exactly the nodes whose label equals it, in node order |
| GdeltV2Export.WithoutLabel | gdelt_v2/utils.py:30 | `drop('nlabel')` removes exactly that column and keeps the rest in order |
| GdeltV2Export.VertexCsvMeaning | gdelt_v2/utils.py:24-31 | the table holds the requested columns except `nlabel`, each once, and one row per labelled node, in order, with its attributes (None where missing) |
| GdeltV2Export.ExportVertexCsv | gdelt_v2/utils.py:24-31 | the column loop computes `VertexCsv` over the distinct requested columns |
| GdeltV2Export.EdgeTable | gdelt_v2/utils.py:35-38 | one row per edge: source and target without their first two characters, and the label or None |
| GdeltV2Export.RowsWith | gdelt_v2/utils.py:40 | `x.loc[x.Edge == label]`: exactly the rows of that label, in order |
| GdeltV2Export.EdgeFiles | gdelt_v2/utils.py:39-41 | one file per label in turn; a label that is not a string stops the loop |
| GdeltV2Export.EdgeFilesFinish | gdelt_v2/utils.py:39-41 | the loop finishes exactly when every label is a string |
| GdeltV2Export.EdgeFilesSound | gdelt_v2/utils.py:39-41 | every file written belongs to a label and holds exactly that label's rows |
| GdeltV2Export.EdgeFilesComplete | gdelt_v2/utils.py:39-41 | when the loop finishes every label has its file |
| GdeltV2Export.TableLabels | gdelt_v2/utils.py:39 | `x.Edge.unique()` holds exactly the labels of the rows |
| GdeltV2Export.EdgeTableComplete | gdelt_v2/utils.py:35-38 | every edge is a row of the table |
| GdeltV2Export.EdgeTableSound | gdelt_v2/utils.py:35-38 | every row of the table comes from an edge |
| GdeltV2Export.EdgeCsvMeaning | gdelt_v2/utils.py:34-41 | every edge is written, as its two ids without prefix, to the file of its label unless some label is not a string, and every written row comes from an edge of that label |
| GdeltV2Export.WriteEdgeFiles | gdelt_v2/utils.py:39-41 | the label loop computes `EdgeFiles` |
| GdeltV2Export.ExportEdgeCsv | gdelt_v2/utils.py:34-41 | computes `EdgeCsv` of the graph |
| GdeltV2Export.WriteGraphml | gdelt_v2/utils.py:44-98 | writes `./graphml/<file>.graphml` with the GraphML text of the shared writer in the quoted-`document_id` dialect |
| GraphmlWriter.OutputPath | util/gpickle_to_graphml.py:32 | the file name up to its first dot, under `./graphml/`, with extension `.graphml`; a name without a dot is used whole |
| GraphmlWriter.KeyUnion | util/gpickle_to_graphml.py:39-40 | `set.union(*[...])` fails exactly when there is no item; otherwise it holds every name of every item, nothing else, each once |
| GraphmlWriter.NodeNames | util/gpickle_to_graphml.py:39-40 | the attribute names of every node, in node order |
| GraphmlWriter.EdgeNames | util/gpickle_to_graphml.py:45-46 | the attribute names of every edge, in edge order |
| GraphmlWriter.NodeId | util/gpickle_to_graphml.py:55-56 | `'{}_{}_{}'.format(temp[0], temp[1], no)` fails exactly when the key has no second `_` piece |
| GraphmlWriter.NodeIdSplits | util/gpickle_to_graphml.py:55-56 | a new id splits back into the key's first two pieces and the position |
| GraphmlWriter.NodeIdsDistinct | util/gpickle_to_graphml.py:54-56 | nodes at different positions get different ids, whatever their keys |
| GraphmlWriter.NodeData | util/gpickle_to_graphml.py:61-69 | every attribute that is written gives a data element |
| GraphmlWriter.NodeDataSound | util/gpickle_to_graphml.py:61-69 | every data element comes from an attribute that is written |
| GraphmlWriter.LabelIsNotData | util/gpickle_to_graphml.py:65-66 | the label attribute never becomes a data element, unless the dialect itself writes it (`wdlabels`, quoted `document_id`) |
| GraphmlWriter.NodeDataNext | util/gpickle_to_graphml.py:61-69 | one more attribute adds its line exactly when it is written |
| GraphmlWriter.EdgeDataNext | util/gpickle_to_graphml.py:78-83 | one more edge attribute adds its line unless it is the label |
| GraphmlWriter.NodeStep | util/gpickle_to_graphml.py:54-70 | a node is written exactly when its key has a second `_` piece and it has the label; then with its new id, its printed label and its data |
| GraphmlWriter.NodesUpTo | util/gpickle_to_graphml.py:54-70 | the node loop gets through the first `m` nodes exactly when each is writable, with one record each |
| GraphmlWriter.NodesUpToMeaning | util/gpickle_to_graphml.py:54-70 | node `i` is written under its new id, with its printed label and its data elements |
| GraphmlWriter.NewIds | util/gpickle_to_graphml.py:53-56 | the `nodes` dictionary maps exactly the node keys, each to its new id |
| GraphmlWriter.NewIdsDistinct | util/gpickle_to_graphml.py:53-56 | no two nodes share a new id |
| GraphmlWriter.EdgeData | util/gpickle_to_graphml.py:78-83 | the data elements of an edge: every attribute but the label |
| GraphmlWriter.EdgeStep | util/gpickle_to_graphml.py:72-84 | an edge is written exactly when both ends have ids and it has the label; then as `e<i>` between the new ids with its label and other attributes |
| GraphmlWriter.EdgesUpTo | util/gpickle_to_graphml.py:72-84 | the edge loop gets through the first `m` edges exactly when each is writable |
| GraphmlWriter.NoEdgesNoFile | util/gpickle_to_graphml.py:45-46 | a graph without edges cannot be written: TypeError from the union of nothing |
| GraphmlWriter.EdgesUpToMeaning | util/gpickle_to_graphml.py:72-84 | edge `i` is written as `e<i>` between its ends' new ids, with its printed label and every other attribute as data |
| GraphmlWriter.EdgesSucceed | util/gpickle_to_graphml.py:72-84 | once every node has an id, the edges go through exactly when each has the label |
| GraphmlWriter.GraphmlSucceeds | util/gpickle_to_graphml.py:31-85 | the file is written exactly when there is an edge, every node key has a second `_` piece and a label, and every edge has a label |
| GraphmlWriter.WriteNodeData | util/gpickle_to_graphml.py:61-69 | the attribute loop of one node writes the lines of `NodeData` |
| GraphmlWriter.WriteEdgeData | util/gpickle_to_graphml.py:78-83 | the attribute loop of one edge writes the lines of `EdgeData` |
| GraphmlWriter.WriteNode | util/gpickle_to_graphml.py:55-70 | the body of the node loop: fails as `NodeStep` does, otherwise returns the new id and the node's text |
| GraphmlWriter.WriteNodes | util/gpickle_to_graphml.py:53-70 | the node loop: the text of every node in order and the `nodes` dictionary `NewIds`, or the first node's error |
| GraphmlWriter.WriteEdge | util/gpickle_to_graphml.py:73-84 | the body of the edge loop for edge `i`: its text, or its error |
| GraphmlWriter.WriteEdges | util/gpickle_to_graphml.py:72-84 | the edge loop: the text of every edge in order, or the first edge's error |
| GraphmlWriter.WriteGraphml | util/gpickle_to_graphml.py:31-85 | `write_xml`: the path written to and the whole text `Graphml`, or the exception raised |
| WordCleaning.Underscored | util/gpickle_to_graphml.py:22-23 | `re.sub(r'[^…]', '_', s)`: same length, a kept character stays, any other becomes `_` |
| WordCleaning.UnderscoredIsClean | util/gpickle_to_graphml.py:22-23 | the substitution leaves only kept characters and underscores |
| WordCleaning.UnderscoredKeepsClean | util/gpickle_to_graphml.py:22-23 | a string of kept characters and underscores comes back unchanged |
| WordCleaning.UnderscoredIdempotent | util/gpickle_to_graphml.py:22-23 | the substitution is idempotent |
| WordCleaning.WordValue | util/gpickle_to_graphml.py:16-23 | a list or set is joined with a space, then any string goes through the substitution; the result is never a list or set, and other values are unchanged |
| WordCleaning.WordValueIdempotent | util/gpickle_to_graphml.py:16-23 | rewriting a rewritten value changes nothing |
| WordCleaning.MissingAmong | util/gpickle_to_graphml.py:24-25 | `del_keys`: exactly the names whose value is missing, in order |
| WordCleaning.RemoveAll | util/gpickle_to_graphml.py:26-27 | after deleting the names, exactly the other attributes remain, in order |
| WordCleaning.RemoveNone | util/gpickle_to_graphml.py:26-27 | deleting nothing leaves the attributes as they are |
| WordCleaning.CleanAttrs | util/gpickle_to_graphml.py:14-27 | an attribute survives exactly when its value is not missing, with its rewritten value |
| WordCleaning.RemoveMissing | util/gpickle_to_graphml.py:24-27 | deleting the names with missing values leaves exactly the others |
| WordCleaning.CleanGraph | util/gpickle_to_graphml.py:12-28 | same nodes in the same order, same edges, every node's attributes cleaned |
| WordCleaning.CleanGraphIsWritable | util/gpickle_to_graphml.py:12-28 | after cleaning no attribute is missing, a list or a set, and every string holds only kept characters and underscores |
| WordCleaning.CleanAttrsIdempotent | util/gpickle_to_graphml.py:14-27 | cleaning one node's cleaned attributes changes nothing |
| WordCleaning.CleanGraphIdempotent | util/gpickle_to_graphml.py:12-28 | cleaning a cleaned graph changes nothing |
| WordCleaning.DeleteAttrs | util/gpickle_to_graphml.py:26-27 | the deletion loop leaves the node's attributes as `RemoveAll` says and no other node changes |
| WordCleaning.CleanNode | util/gpickle_to_graphml.py:14-27 | the two loops over one node: its attributes become `CleanAttrs` of the old ones, every other node and every edge unchanged |
| WordCleaning.Clean | util/gpickle_to_graphml.py:12-28 | `clean(graph)` in place: the graph becomes `CleanGraph` of the old one |
| WordCleaning.LetterWErasesNames | util/networkx_importer.py:95-96 | as written, `[^w]` turns "Athens" into "______" |
| WordCleaning.LetterWErasesAll | util/networkx_importer.py:95-96 | as written, every character of a string without `w` becomes `_` |
| WordCleaning.WordCharsKeepWords | util/gpickle_to_graphml.py:22-23 | with `[^\w]`, a string of word characters is unchanged |
| GraphmlCleaning.StripControl | wikidata/wikidata_networkx.py:324-328 | no character of the result encodes as a byte 0x00-0x10; the result holds exactly the other characters of the input; it is no longer |
| GraphmlCleaning.StripControlKeepsClean | wikidata/wikidata_networkx.py:324-328 | a string without such characters comes back unchanged |
| GraphmlCleaning.SafeValue | wikidata/wikidata_networkx.py:317-328 | a list or set is joined with `<<;>>`, any string then loses its control characters; the result is never a list or set and other values are unchanged |
| GraphmlCleaning.SafeValueIdempotent | wikidata/wikidata_networkx.py:317-328 | cleaning a clean value changes nothing |
| GraphmlCleaning.MapAttrs | wikidata/wikidata_networkx.py:317 | every value rewritten, names and order kept |
| GraphmlCleaning.MapNodes | wikidata/wikidata_networkx.py:316 | every node's attributes rewritten, node order and edges kept |
| GraphmlCleaning.SafeGraph | wikidata/wikidata_networkx.py:315-328 | same nodes in the same order with the same attribute names, every value cleaned, edges untouched |
| GraphmlCleaning.SafeGraphIsWritable | wikidata/wikidata_networkx.py:315-328 | after cleaning no attribute is a list or set and no string holds a control character |
| GraphmlCleaning.SafeGraphIdempotent | wikidata/wikidata_networkx.py:311-330 | exporting twice cleans no more than exporting once |
| GraphmlCleaning.MapNode | wikidata/wikidata_networkx.py:317-328 | the inner loop replaces every attribute of one node by its rewritten value, nothing else changes |
| GraphmlCleaning.CleanForGraphml | wikidata/wikidata_networkx.py:315-328 | the cleaning loop of `export(path, 'graphml')`: the graph becomes `SafeGraph` of the old one |
| NetworkxImport.EdgeValuesCount | util/networkx_importer.py:77-81 | when every edge's triple can be read, the edge counter does not raise |
| NetworkxImport.NetworkxImporter.constructor | util/networkx_importer.py:14-16 | an empty graph with the given source and no cached counters |
| NetworkxImport.NetworkxImporter.PrintStatistics | util/networkx_importer.py:63-82 | succeeds exactly when every edge triple can be read; returns the node label set, each label's count of nodes from the source, and each edge triple's count |
| NetworkxImport.NetworkxImporter.NodeCounts | util/networkx_importer.py:68-72 | one count per label, each the number of nodes from the source with that label |
| NetworkxImport.NetworkxImporter.EdgeCounts | util/networkx_importer.py:77-81 | one count per triple, each the edge counter's value for its key |
| NetworkxImport.NetworkxImporter.Export | util/networkx_importer.py:158-163 | gpickle (or any other format) leaves the graph unchanged and writes no GraphML; `graphml` cleans in place and writes the cleaned graph in the `wdlabels` dialect — cleaning with `[^\w]` (see Findings) |
| GpickleToGraphml.CleanGraphml | util/gpickle_to_graphml.py:12-28 | `clean` changes the graph in place to `CleanGraph` with word characters and hands back the same object |
| GpickleToGraphml.CleanedWords | util/gpickle_to_graphml.py:12-28 | after `clean`, every string attribute holds word characters only and no attribute is missing, a list or a set |
| GpickleToGraphml.Convert | util/gpickle_to_graphml.py:95-105 | one file: the graph is cleaned in place, then written to `./graphml/<stem>.graphml` as the writer's text |
| CorpwatchGraph.AliasSet | corpwatch/corpwatch_networkx.py:136-137 | `set(x)` of a country's names: a set holding exactly the printed names, each once (see Left out) |
| CorpwatchGraph.FindCoords | corpwatch/corpwatch_networkx.py:229-232 | the two coordinate cells when the row has `<prefix>latitude` (a missing longitude raises), NaN twice otherwise |
| CorpwatchGraph.Importer.constructor | corpwatch/corpwatch_networkx.py:12-13 | an empty graph and no cached counters |
| CorpwatchGraph.Importer.CreateCompanies | corpwatch/corpwatch_networkx.py:62-79 | graph and raised error equal `Ingest` of the company steps |
| CorpwatchGraph.Importer.CreateIndustries | corpwatch/corpwatch_networkx.py:81-90 | graph and raised error equal `Ingest` of the industry steps |
| CorpwatchGraph.Importer.CreateSectors | corpwatch/corpwatch_networkx.py:92-105 | graph and raised error equal `Ingest` of the sector steps |
| CorpwatchGraph.Importer.CreateCountries | corpwatch/corpwatch_networkx.py:107-114 | graph and raised error equal `Ingest` of the country steps |
| CorpwatchGraph.Importer.CreateSubdivisions | corpwatch/corpwatch_networkx.py:116-133 | graph and raised error equal `Ingest` of the subdivision steps |
| CorpwatchGraph.Importer.CreateCountriesAliases | corpwatch/corpwatch_networkx.py:135-141 | a missing column raises before any change; otherwise graph and error equal `Ingest` of one alias step per group |
| CorpwatchGraph.Importer.CreateLocations | corpwatch/corpwatch_networkx.py:143-167 | graph and raised error equal `Ingest` of the location steps |
| CorpwatchGraph.Importer.CreateFilers | corpwatch/corpwatch_networkx.py:169-207 | graph and raised error equal `Ingest` of the filer steps |
| CorpwatchGraph.Importer.CreateRelationships | corpwatch/corpwatch_networkx.py:209-227 | graph and raised error equal `Ingest` of the relationship steps |
| CorpwatchGraph.Importer.Export | corpwatch/corpwatch_networkx.py:253-272 | only the GraphML format changes the graph, into `SafeGraph` of the old one |
| CorpwatchFacts.CompanyMeetsIndustry | corpwatch/corpwatch_networkx.py:75-83 | a company's industry stub and an industry row meet on one node exactly when `int(sic_code)` of the company equals the industry's integer code |
| CorpwatchFacts.IndustryLinkEffect | corpwatch/corpwatch_networkx.py:74-79 | a present `sic_code` adds the industry stub `CW_I_<int(sic_code)>` and one PART_OF edge from the company |
| CorpwatchFacts.CompanyRowEffect | corpwatch/corpwatch_networkx.py:62-79 | a company row raises exactly when a column is absent or `sic_code` is present but not an integer; it writes every company attribute on `CW_C_<cw_id>`, and only a present `sic_code` adds the stub and the PART_OF edge |
| CorpwatchFacts.IndustryRowEffect | corpwatch/corpwatch_networkx.py:81-90 | an industry row raises exactly when a column is absent; otherwise it writes the industry, makes the sector a Sector and adds one PART_OF edge |
| CorpwatchFacts.SectorRowEffect | corpwatch/corpwatch_networkx.py:92-105 | a sector row writes the sector and its group, linked by one PART_OF edge |
| CorpwatchFacts.SubdivisionRowEffect | corpwatch/corpwatch_networkx.py:116-133 | a subdivision row writes `CW_SD_<cc>_<sd>` with `subdivision_code` `<cc>_<sd>`, makes the country a Country and adds one IS_IN edge |
| CorpwatchFacts.CountryRowEffect | corpwatch/corpwatch_networkx.py:107-114 | a country row writes the country under `CW_CT_<country_code>` and nothing else |
| CorpwatchFacts.LocationInSubdivisionOps | corpwatch/corpwatch_networkx.py:160-167 | the IS_IN part raises exactly when a code column is absent; otherwise it links the location to `CW_SD_<cc>_<sd>` unless both codes are missing |
| CorpwatchFacts.LocationRowFailure | corpwatch/corpwatch_networkx.py:143-167 | a location row raises exactly when a column it reads is absent |
| CorpwatchFacts.LocationRowWrites | corpwatch/corpwatch_networkx.py:145-154 | a location row writes `CW_L_<street_1>` with the coordinates `__find_coords` found and makes the company a Company |
| CorpwatchFacts.LocationRowEdges | corpwatch/corpwatch_networkx.py:155-167 | the LOCATED_AT edge runs from location to company, and the IS_IN edge follows unless both codes are missing |
| CorpwatchFacts.LocationsShareNode | corpwatch/corpwatch_networkx.py:146-152 | two rows with the same street share one node, which keeps the later row's attributes |
| CorpwatchFacts.FilerLocationOps | corpwatch/corpwatch_networkx.py:178-207 | a filer location raises exactly when its coordinates or a column cannot be read; otherwise the location call and the LOCATED_AT edge from the filer |
| CorpwatchFacts.FilerRowFailure | corpwatch/corpwatch_networkx.py:169-207 | a filer row raises exactly when the filer cannot be written, a street column is absent, or a present street's location cannot be read |
| CorpwatchFacts.FilerRowOps | corpwatch/corpwatch_networkx.py:169-207 | a filer row is the filer call followed by its two location parts |
| CorpwatchFacts.FilerRowEdges | corpwatch/corpwatch_networkx.py:178-207 | a filer row adds a LOCATED_AT edge to its business and to its mail location, each only when that street is present |
| CorpwatchFacts.FilerRowWrites | corpwatch/corpwatch_networkx.py:171-177 | a filer row writes every filer attribute on `CW_F_<cik>`, and the locations never overwrite it |
| CorpwatchFacts.RelationshipFailure | corpwatch/corpwatch_networkx.py:209-227 | a relationship row raises exactly when a column is absent or `filer_cik` is not a number |
| CorpwatchFacts.RelationshipOps | corpwatch/corpwatch_networkx.py:209-227 | otherwise: filer and company calls, the FILED edge, then, only with a parent, the parent stub and the PARENT edge |
| CorpwatchFacts.RelationshipRowEffect | corpwatch/corpwatch_networkx.py:209-227 | the FILED edge from `CW_F_<int(filer_cik)>` to the company, then the PARENT edge when there is a parent; the filer is a Filer and the company a Company |
| CorpwatchFacts.AliasOpEffect | corpwatch/corpwatch_networkx.py:140-141 | one alias call sets the country's `alias` to the set and moves nothing else |
| CorpwatchFacts.AliasWrites | corpwatch/corpwatch_networkx.py:138-141 | alias writes on distinct nodes never raise and add no edge; each node gets its value, every other node is as it was |
| CorpwatchFacts.AliasStepCall | corpwatch/corpwatch_networkx.py:139 | the NaN check on a set never fires |
| CorpwatchFacts.AliasesEffect | corpwatch/corpwatch_networkx.py:138-141 | the alias rows never raise and add no edge; each grouped country's `alias` is the set of its names; other nodes unchanged |
| CorpwatchFacts.CountriesAliases | corpwatch/corpwatch_networkx.py:135-141 | over a whole frame: no row raises, no edge is added, and the country of every row with a code gets the set of all names given for that code |
| WikidataGraph.NodeKey | wikidata/wikidata_networkx.py:169-170 | `"WD_{}_{}".format(label[:3], id)`: starts with `WD_`, ends with the id, and is 4 + the prefix length + the id length long |
| WikidataGraph.SplitColumns | wikidata/wikidata_networkx.py:143-147 | the split dictionary is built exactly when every key exists and each cell is skipped or a string; each kept cell gives its lower-cased name and its `;`-split list |
| WikidataGraph.SplitColumnsSource | wikidata/wikidata_networkx.py:143-147 | every entry of the split dictionary comes from a string cell the rule does not skip |
| WikidataGraph.FloatColumns | wikidata/wikidata_networkx.py:148-151 | every float cell gives its lower-cased name and the cell unchanged |
| WikidataGraph.FloatColumnsSource | wikidata/wikidata_networkx.py:148-151 | every entry comes from a float cell of one of the keys |
| WikidataGraph.ItemOps | wikidata/wikidata_networkx.py:168-178 | for each `;` item, in order: the item's node, then the edge from the row's node to it |
| WikidataGraph.EntityRows | wikidata/wikidata_networkx.py:125-151 | one entity step per row, in frame order |
| WikidataGraph.LinkRowsFor | wikidata/wikidata_networkx.py:153-154 | the link steps of every target table entry, in turn, each over all rows |
| WikidataGraph.FindIdsIn | wikidata/wikidata_networkx.py:204-209 | `__find_ids` fails exactly when an unexpanded node of the label has no `id`; otherwise exactly the ids of those nodes |
| WikidataGraph.RowsWithIds | wikidata/wikidata_networkx.py:274 | `df.loc[ids & set(df.index)]`: exactly the rows whose index is one of the ids (frame order, see Left out) |
| WikidataGraph.ExpansionRows | wikidata/wikidata_networkx.py:269-278 | the rows expanded are exactly the rows whose index is the id of an unexpanded node of that label; a node without `id` raises |
| WikidataGraph.NodesIdsIn | wikidata/wikidata_networkx.py:64-69 | `__get_nodes_ids('nlabel', v)`: the ids of the Wikidata nodes with that label; a matching node without `id` raises |
| WikidataGraph.UnlabeledIdsIn | wikidata/wikidata_networkx.py:57-62 | fails exactly when some node has no `nlabel`, or an unlabeled node of the label has no `id`; otherwise exactly those ids |
| WikidataGraph.PlanFrom | wikidata/wikidata_networkx.py:187-201 | the Organization and Person removal sets are both inside the common ids |
| WikidataGraph.Twins | wikidata/wikidata_networkx.py:183-192 | the corrected plan, with ids used untruncated: both removal sets inside the common ids (see Findings) |
| WikidataGraph.Truncated | wikidata/wikidata_networkx.py:183-189 | `x[7:]` over a set succeeds exactly when every id is a string, and is then the set of the ids without their first 7 characters |
| WikidataGraph.Importer.constructor | wikidata/wikidata_networkx.py:12-55 | an empty graph and no cached counters |
| WikidataGraph.Importer.CreateCompanies | wikidata/wikidata_networkx.py:123-154 | `create_companies`: graph and error equal `Ingest` of the organization rows and then the link steps of every target |
| WikidataGraph.Importer.ExpandNodes | wikidata/wikidata_networkx.py:269-278 | `expand_nodes`: a failing id lookup raises before any change; otherwise graph and error equal `Ingest` of the expansion steps of the selected rows |
| WikidataGraph.Importer.CleanCompaniesOwner | wikidata/wikidata_networkx.py:180-202 | `clean_companies_onwer` with untruncated ids (see Findings): an id lookup failure changes nothing; under `KeysFollowIds` it never fails; otherwise the count is the number of removals and the graph is the old one without the removed nodes and their edges |
| WikidataGraph.Importer.RemoveTwins | wikidata/wikidata_networkx.py:194-201 | the removal loop over a plan: cannot fail when every node to remove is present, and then removes exactly the planned nodes and counts them |
| WikidataGraph.Importer.RemoveTwinsOf | wikidata/wikidata_networkx.py:196-201 | one turn of the loop: the removals for one shared id |
| WikidataGraph.Importer.Export | wikidata/wikidata_networkx.py:311-330 | only the GraphML format changes the graph, into `SafeGraph` of the old one |
| WikidataGraph.TwinKeysDistinct | wikidata/wikidata_networkx.py:198-201 | removal keys of different string ids differ, and an Organization key never equals a Person key |
| WikidataGraph.IdNamesNode | wikidata/wikidata_networkx.py:169-172 | under the key invariant, an id of a Wikidata node is a string and the node sits under `NodeKey(nlabel, id)` |
| WikidataGraph.TwinKeysUnderInvariant | wikidata/wikidata_networkx.py:192-201 | under the key invariant, every shared id is a string and names the nodes the loop is about to remove |
| WikidataFacts.FirstUpsertNames | wikidata/wikidata_networkx.py:126-137 | the first upsert names only `id`, `nlabel`, `source` and the copied columns |
| WikidataFacts.SplitNames | wikidata/wikidata_networkx.py:143-147 | the split upsert names only lower-cased multi-valued columns |
| WikidataFacts.FloatNames | wikidata/wikidata_networkx.py:148-151 | the float upsert names only lower-cased multi-valued columns |
| WikidataFacts.SplitValueOf | wikidata/wikidata_networkx.py:143-147 | with distinct names, the split upsert gives a column its split list exactly when its cell is not skipped |
| WikidataFacts.FloatValueOf | wikidata/wikidata_networkx.py:148-151 | with distinct names, the float upsert gives a column its cell unchanged exactly when the cell is a float |
| WikidataFacts.LaterOpsSkip | wikidata/wikidata_networkx.py:143-151 | a name that is no lower-cased multi-valued column is not written by the later upserts |
| WikidataFacts.EntityRowEffect | wikidata/wikidata_networkx.py:125-151 | an entity row raises exactly when a multi-valued column is absent or neither skipped nor a string; the node `WD_<nlabel[:3]>_<index>` carries `id`, `nlabel`, `source` and every copied column, and each multi-valued column ends as its split list or the cell as the rule says |
| WikidataFacts.LaterOpsOutcome | wikidata/wikidata_networkx.py:143-151 | what the later upserts leave in one multi-valued attribute |
| WikidataFacts.KeyOfLabel | wikidata/wikidata_networkx.py:126 | the key of each label the builders use |
| WikidataFacts.CompanyTableApart | wikidata/wikidata_networkx.py:126-141 | the organization columns do not collide, so `EntityRowEffect` applies |
| WikidataFacts.PersonTableApart | wikidata/wikidata_networkx.py:227-234 | the person columns do not collide |
| WikidataFacts.ProductTableApart | wikidata/wikidata_networkx.py:252-257 | the product columns do not collide |
| WikidataFacts.ExpandTableApart | wikidata/wikidata_networkx.py:214-218 | the generic expansion columns do not collide |
| WikidataFacts.ItemOpsEdges | wikidata/wikidata_networkx.py:168-178 | a link column adds one edge per item, in item order, from the row's node to the item's node, labelled with the column upper-cased |
| WikidataFacts.NodeKeyInjective | wikidata/wikidata_networkx.py:169-170 | keys of one label are told apart by the id |
| WikidataFacts.ItemNodeAttr | wikidata/wikidata_networkx.py:169-172 | an item node's attribute after a link column is the one its own call gives |
| WikidataFacts.ItemNodesLabelled | wikidata/wikidata_networkx.py:169-172 | after a link column every item's node carries the target label, the item as id and the Wikidata source |
| WikidataFacts.LinkItemsEffect | wikidata/wikidata_networkx.py:165-178 | an absent column raises KeyError; a missing cell or one of length at most 1 adds nothing; a longer string adds its item edges and labelled item nodes |
| WikidataFacts.NodeKeysOfLabelsDiffer | wikidata/wikidata_networkx.py:169-176 | keys built for labels with different first letters never meet |
| WikidataFacts.ItemOpsLeaveOthers | wikidata/wikidata_networkx.py:166-178 | the operations of one target label never write a node of another |
| WikidataFacts.OwnerLinksBoth | wikidata/wikidata_networkx.py:165-178 | the `Owner` target links each item both to a Person and to an Organization node: Person edges, then Organization edges |
| WikidataFacts.RerunAddsParallelEdges | wikidata/wikidata_networkx.py:173-178 | running a row's link operations again appends the same edges in parallel: twice as many |
| WikidataFindings.PlansFromIds | wikidata/wikidata_networkx.py:183-192 | both plans, corrected and as written, from the four id sets the cleanup starts from |
| WikidataFindings.AsWrittenPlan | wikidata/wikidata_networkx.py:183-192 | as written, a graph with one shared id "Q5" yields the plan over the id "" |
| WikidataFindings.TruncatedTwinsRemoveMissingNode | wikidata/wikidata_networkx.py:183-201 | as written, the only removal is of `WD_Org_`, which does not exist: `remove_node` fails |
| WikidataFindings.PlanOfTwins | wikidata/wikidata_networkx.py:187-201 | one id on both sides, labelled only on the Person side: only the Organization node is to go |
| WikidataFindings.CorrectedTwinsRemoveOrganization | wikidata/wikidata_networkx.py:183-201 | corrected, the shared id stays "Q5", its Organization key names an existing node, and the graph keeps the key invariant |
| WikidataInvariant.NodeAddedKeeps | wikidata/wikidata_networkx.py:169-172 | a consistent node call keeps every Wikidata node under the key of its label and id |
| WikidataInvariant.EdgeAddedKeeps | wikidata/wikidata_networkx.py:173-178 | an edge call keeps the key invariant |
| WikidataInvariant.IngestKeeps | wikidata/wikidata_networkx.py:125-178 | rows whose calls are all consistent keep the key invariant, whether or not a row raises |
| WikidataInvariant.EntityStepConsistent | wikidata/wikidata_networkx.py:126-151 | an entity row's first upsert sets `id` and `nlabel` to those its key is made of, the later ones only write multi-valued columns |
| WikidataInvariant.LinkStepConsistent | wikidata/wikidata_networkx.py:164-178 | a link row's calls are consistent |
| WikidataInvariant.CompaniesKeepKeys | wikidata/wikidata_networkx.py:123-154 | `create_companies` keeps the key invariant |
| WikidataInvariant.ExpansionKeepsKeys | wikidata/wikidata_networkx.py:269-278 | `expand_nodes`, for any label, keeps the key invariant |
| Neo4jImport.Render | util/gpickle_to_neo4j.py:56-64 | one attribute's text is empty exactly when the value is missing (NaN is skipped) |
| Neo4jImport.Escaped | util/gpickle_to_neo4j.py:59-60 | escaping keeps a string a string and any other value a non-string |
| Neo4jImport.EdgeStatement | util/gpickle_to_neo4j.py:75-91 | building an edge statement fails with KeyError exactly when an endpoint or the edge lacks its label |
| Neo4jImport.FirstUnlabelled | util/gpickle_to_neo4j.py:53-54 | the position of the first node without the label attribute, all nodes before it having it |
| Neo4jImport.NodeStatements | util/gpickle_to_neo4j.py:53-65 | one statement per node, in node order |
| Neo4jImport.RejectedNodesMembers | util/gpickle_to_neo4j.py:67-70 | a node is reported exactly when the statement sent for it was rejected |
| Neo4jImport.RunUntilErrorCompletes | util/gpickle_to_neo4j.py:74-92 | a run ends without error exactly when every statement was built and accepted, and then every statement was sent, in order |
| Neo4jImport.RunUntilErrorStops | util/gpickle_to_neo4j.py:74-92 | a run that ends in error ends at the first statement that could not be built or was rejected, everything before it having been sent |
| Neo4jImport.RunAppend | util/gpickle_to_neo4j.py:74-92 | running two lists one after the other is running them together, unless the first stopped |
| Neo4jImport.NodeStatementHasAttr | util/gpickle_to_neo4j.py:55-64 | every attribute of a node that is not missing is in its statement, a string one with its quotes escaped |
| Neo4jImport.EdgeStatementHasAttr | util/gpickle_to_neo4j.py:82-89 | every attribute of an edge that is not missing is in its statement, strings unescaped |
| Neo4jImport.EscapedAttrsRoundTrip | util/gpickle_to_neo4j.py:59-60 | the in-place escaping loses nothing: unescaping gives each string back, other values are unchanged |
| Neo4jImport.ReimportEscapesAgain | util/gpickle_to_neo4j.py:59-60 | the escaping is written into the graph, so a string with a quote is escaped again on a second import |
| Neo4jImport.Session.constructor | util/gpickle_to_neo4j.py:15-18 | a session that has sent nothing, with the given rejection oracle |
| Neo4jImport.Session.Run | util/gpickle_to_neo4j.py:43 | `session.run`: the statement is appended to what was sent and accepted exactly when the oracle does not reject it |
| Neo4jImport.Session.RunAll | util/gpickle_to_neo4j.py:74-92 | sends the statements `RunUntilError` says and ends with its error |
| Neo4jImport.Session.Constraints | util/gpickle_to_neo4j.py:23-43 | sends the constraints of the labels in order, stopping after the first rejected one; succeeds exactly when none is rejected, otherwise raises the syntax error of the last one sent |
| Neo4jImport.Session.DeleteGraph | util/gpickle_to_neo4j.py:45-49 | sends `MATCH (n) DETACH DELETE(n)`, failing exactly when it is rejected |
| Neo4jImport.Session.ImportNodes | util/gpickle_to_neo4j.py:51-71 | sends one statement per node up to the first unlabelled node, which raises KeyError; the string attributes of those nodes are escaped in the graph; otherwise returns exactly the rejected nodes, in order |
| Neo4jImport.Session.ImportEdges | util/gpickle_to_neo4j.py:73-92 | sends the edge statements in edge order until one cannot be built (KeyError) or is rejected (syntax error), which ends the import |
| Neo4jImport.NodeQuery | util/gpickle_to_neo4j.py:54-65 | the inner loop of one node: the statement built and the node's attributes escaped in place, nothing else changed |
| Neo4jImport.EscapeAttr | util/gpickle_to_neo4j.py:56-64 | one attribute: escaped in place and its text rendered |
| Neo4jImport.EdgeQuery | util/gpickle_to_neo4j.py:75-91 | builds `EdgeStatement` attribute by attribute |
| Neo4jImport.PropsText | util/gpickle_to_neo4j.py:82-89 | the attribute loop of an edge statement: each attribute's text in turn |
| WdImport.Sanitize | wikidata/wd_import.py:111-114 | the sanitised text holds no backslash and no double quote and has the input's length |
| WdImport.ReplaceCharKeepsAbsent | wikidata/wd_import.py:112-113 | a character absent from the text and from the replacement stays absent after `re.sub` of a single character |
| WdImport.SanitizeKeepsClean | wikidata/wd_import.py:111-114 | text without backslashes or double quotes passes through the two substitutions unchanged |
| WdImport.SanitizeIdempotent | wikidata/wd_import.py:111-114 | sanitising twice is sanitising once, so a re-import writes the same literal |
| WdImport.AssignmentOf | wikidata/wd_import.py:109-124 | a column yields an assignment exactly when its value is not missing and, for a coordinate, is a float; quoted and list assignments carry sanitised text under the column's own key |
| WdImport.KeysOf | wikidata/wd_import.py:109-124 | the keys of a list of assignments, position by position |
| WdImport.AssignmentsSucceed | wikidata/wd_import.py:109-124 | a column loop raises no `KeyError` exactly when every listed column is in the frame |
| WdImport.AssignmentsKeys | wikidata/wd_import.py:109-124 | when every column is present, the assignments are those of the written columns, in the listed order |
| WdImport.AssignmentsValues | wikidata/wd_import.py:109-124 | each assignment is the one its column's value calls for |
| WdImport.AssignmentsFailure | wikidata/wd_import.py:109-124 | a failing loop reports the first listed column the frame lacks, every earlier column being present |
| WdImport.EntityStatementSucceeds | wikidata/wd_import.py:106-125 | a row's MERGE statement is built exactly when the frame has every text, list and coordinate column of the entity kind |
| WdImport.EntityStatements | wikidata/wd_import.py:106-125 | one statement outcome per row of the chunk, in row order |
| WdImport.ItemStatements | wikidata/wd_import.py:143-150 | one link statement per `;`-separated item, in order, each merging the row's entity, the item and the upper-cased edge |
| WdImport.LabelStatementsItems | wikidata/wd_import.py:139-150 | a present string link column gives, for one target label, exactly the statements of its `;` items |
| WdImport.OwnerItemsBothLabels | wikidata/wd_import.py:13-38 | an `Owned_by` item of an organization gives two statements, to a Person and then to an Organization of that id |
| WdImport.Selected | wikidata/wd_import.py:67-72 | `df.loc[ids & set(df.index)]` keeps exactly the rows whose index is among the ids |
| WdImport.SelectedMeaning | wikidata/wd_import.py:76-88 | a row is expanded exactly when it is in the chunk and the database still reports it unlabelled |
| WdImport.EntityQuery | wikidata/wd_import.py:106-124 | the query built by `+=` over the head and the three kinds of columns is the row's statement, or the `KeyError` the first missing column raises |
| WdImport.AppendColumns | wikidata/wd_import.py:109-121 | one column loop appends exactly the clauses of its assignments, or fails with the loop's `KeyError` |
| WdImport.AssignmentsNext | wikidata/wd_import.py:109-121 | one more column either raises `KeyError`, is skipped, or appends its assignment and its clause |
| WdImport.ClausesAppend | wikidata/wd_import.py:114-124 | the text of two runs of assignments is the concatenation of their texts |
| WdImport.AssignmentsStop | wikidata/wd_import.py:109-121 | once a column has raised, the later columns do not change the outcome |
| WdImport.CreateCompanies | wikidata/wd_import.py:104-128 | the session receives the organization statements and then every target's link statements, up to the first failure, which is returned |
| WdImport.CreatePerson | wikidata/wd_import.py:186-204 | the same for the person rows and the person link table |
| WdImport.CreateThenLink | wikidata/wd_import.py:104-128 | entity statements and then link statements run in one transaction up to the first error |
| WdImport.ExpandNode | wikidata/wd_import.py:161-176 | only the selected rows are merged, with their label, aliases, descriptions and labels, up to the first error |
| WdImport.CreateProduct | wikidata/wd_import.py:207-221 | the selected product rows are merged with their columns, up to the first error |
| WdImport.CleanCompaniesOwner | wikidata/wd_import.py:153-158 | the two deletions of organizations and persons sharing an id run in order, up to the first error |
| WdImport.CreateEntities | wikidata/wd_import.py:186-201 | the row loop sends each row's statement in turn and stops at the first error |
| CwImport.Apostrophes | corpwatch/cw_import.py:83 | after `re.sub("'", "\\'", s)` every apostrophe is preceded by a backslash |
| CwImport.ApostrophesRoundTrip | corpwatch/cw_import.py:83 | the escaped text reads back as the original text |
| CwImport.EscapedCell | corpwatch/cw_import.py:83 | escaping a cell succeeds exactly when the column exists and holds a string (else `KeyError` or `TypeError`), and then yields the escaped string |
| CwImport.Formatted | corpwatch/cw_import.py:67-73 | `"{}".format(row[c])` fails only on a column the frame lacks |
| CwImport.JoinedCodes | corpwatch/cw_import.py:127 | `row[a] + "_" + row[b]` succeeds exactly when both cells are strings, and is their join with `_` |
| CwImport.BothMissing | corpwatch/cw_import.py:74 | the `and` reads the second column only when the first is NaN, and is true exactly when both are NaN |
| CwImport.CompanyClauses | corpwatch/cw_import.py:65-78 | the company statement: the Company merge, then the Industry merge and the `PART_OF` edge unless both industry columns are NaN; the columns are read in the source's order and the first missing one raises (see `CompanyIndustry`, `CompanySucceeds`) |
| CwImport.CompanyIndustry | corpwatch/cw_import.py:65-78 | the company statement adds the Industry merge and the `PART_OF` edge exactly when the SIC code or the industry name is present |
| CwImport.CompanySucceeds | corpwatch/cw_import.py:65-78 | the company statement is built exactly when its eight columns and the SIC code exist, and the industry name too when the code is NaN |
| CwImport.IndustryClauses | corpwatch/cw_import.py:81-90 | the industry statement: the Industry with its escaped name, its Sector and the `PART_OF` edge (see `NamesEscaped`) |
| CwImport.SectorClauses | corpwatch/cw_import.py:93-106 | the sector statement: the Sector with its escaped name, the SectorGroup with its escaped name and the `PART_OF` edge (see `NamesEscaped`) |
| CwImport.NamesEscaped | corpwatch/cw_import.py:81-106 | industry and sector names are written escaped; the industry statement fails exactly when a needed column is absent or the name is not a string |
| CwImport.CountryClauses | corpwatch/cw_import.py:109-117 | the country statement: one Country merge with the escaped name (see `CountryBuilt`) |
| CwImport.CountryBuilt | corpwatch/cw_import.py:109-117 | the country statement is one clause, built exactly when the name is a string and the code and coordinates exist; a missing or non-string name raises first |
| CwImport.SubdivisionClauses | corpwatch/cw_import.py:120-132 | the subdivision statement: the Subdivision keyed by the joined codes, its Country and the `IS_IN` edge (see `SubdivisionKey`) |
| CwImport.SubdivisionNode | corpwatch/cw_import.py:124-128 | the subdivision pattern starts with the merge on its key |
| CwImport.SubdivisionKey | corpwatch/cw_import.py:120-132 | a subdivision's key is the country code and subdivision code joined by `_`, and it is linked `IS_IN` to the country of that code |
| CwImport.LocationClauses | corpwatch/cw_import.py:146-163 | the location statement: the Company, a new Location, `LOCATED_AT`, and the `IS_IN` edge to the subdivision unless both codes are NaN (see `LocationShape`, `LocationSubdivision`) |
| CwImport.LocationShape | corpwatch/cw_import.py:146-157 | each location row creates a new Location from the escaped street and city fields and links its company to it |
| CwImport.LocationSubdivision | corpwatch/cw_import.py:158-162 | the location is linked to the subdivision keyed by its codes exactly when one of the codes is present |
| CwImport.EscapeStrings | corpwatch/cw_import.py:168-170 | escaping the cells of a row keeps its columns |
| CwImport.EscapeStringsRoundTrip | corpwatch/cw_import.py:168-170 | every string cell is escaped reversibly and every other cell is untouched |
| CwImport.FilerClauses | corpwatch/cw_import.py:166-192 | the filer statement from the escaped row: the Filer, and the business and mail Locations each linked `LOCATED_AT` (see `FilerLocations`) |
| CwImport.FilerLocations | corpwatch/cw_import.py:166-192 | a filer statement creates exactly two Locations, `business` then `mail`, from the escaped cells, each linked `LOCATED_AT` to the filer |
| CwImport.RelationshipClauses | corpwatch/cw_import.py:195-207 | the relationship statement: the `FILED` edge, and the `PARENT` edge when the parent id is not NaN (see `RelationshipEdges`) |
| CwImport.RelationshipEdges | corpwatch/cw_import.py:195-207 | the `FILED` edge carries the filing id; the `PARENT` edge with the same id is added exactly when the parent id is present |
| CwImport.RowStatements | corpwatch/cw_import.py:66-78 | one statement per row in order: the joined clauses, or the error building them raised |
| CwImport.JoinNames | corpwatch/cw_import.py:137 | `';'.join(x)` succeeds exactly when every name is a string |
| CwImport.Strings | corpwatch/cw_import.py:137 | the texts of a run of string cells, in order |
| CwImport.JoinNamesMeaning | corpwatch/cw_import.py:137 | the joined names are the names separated by `;` |
| CwImport.AliasRows | corpwatch/cw_import.py:136-137 | the aggregation gives one row per group with the group's key and its joined names |
| CwImport.AliasStatementsMeaning | corpwatch/cw_import.py:135-143 | each alias statement belongs to one present country code and holds every name of that code's rows, in row order |
| CwImport.AllSucceed | corpwatch/cw_import.py:49-62 | fixed statements are statements that cannot fail to build |
| CwImport.CreateRows | corpwatch/cw_import.py:23-44 | the session receives the chunk's statements up to the first error, which is returned |
| CwImport.CreateConstraints | corpwatch/cw_import.py:48-62 | the constraint and index statements are sent in order, up to the first rejected one |
| CwImport.CreateCountriesAliases | corpwatch/cw_import.py:135-143 | when the aggregation raises nothing is sent; otherwise the alias statements are sent up to the first error |
| WikidataFilter.ParseChoice | wikidata/wikidata_filter.py:14-16 | a choice is accepted exactly when it is `"type"` or `"id"`; anything else raises `ValueError` |
| WikidataFilter.Paths | wikidata/wikidata_filter.py:18-19 | a single file argument is wrapped in a list; a list is used as given |
| WikidataFilter.Basename | wikidata/wikidata_filter.py:25 | the base name holds no `/`, and a path without `/` is its own base name |
| WikidataFilter.Names | wikidata/wikidata_filter.py:22 | the index of the store, row by row |
| WikidataFilter.IndexOf | wikidata/wikidata_filter.py:27 | the first place of a name in the index |
| WikidataFilter.SetIdsMeaning | wikidata/wikidata_filter.py:27-28 | `store.loc[base, "ids"] = ids` gives the row `base` the ids, keeps every other row in place, adds no other name and keeps the index unique |
| WikidataFilter.StoreOfUnique | wikidata/wikidata_filter.py:24-37 | the store built from the files has one row per distinct base name |
| WikidataFilter.StoreOfSucceeds | wikidata/wikidata_filter.py:24-30 | the store is built exactly when every file can be read |
| WikidataFilter.StoreOfNames | wikidata/wikidata_filter.py:24-28 | every file gives a row named by its base name |
| WikidataFilter.StoreOfStop | wikidata/wikidata_filter.py:26-30 | once a file cannot be read, the later files do not change the outcome |
| WikidataFilter.TypeIds | wikidata/wikidata_filter.py:45-47 | the type ids of an item are exactly the values of its `P31` claims that carry a `datavalue` |
| WikidataFilter.FilterLine | wikidata/wikidata_filter.py:41-55 | an item goes to the first store row that takes it, and to no file exactly when no row takes it |
| WikidataFilter.UntypedNotRouted | wikidata/wikidata_filter.py:43-44 | in type mode an item without `P31` claims goes to no file |
| WikidataFilter.RoutedCount | wikidata/wikidata_filter.py:79-86 | as many lines are written to a file as were counted for it |
| WikidataFilter.AddCounts | wikidata/wikidata_filter.py:79-81 | each row's found count grows by the number of lines routed to it, with ids and names unchanged |
| WikidataFilter.Unfinished | wikidata/wikidata_filter.py:94-110 | `breaker` keeps exactly the rows that have not found all their ids, in order |
| WikidataFilter.TypeModeKeepsAll | wikidata/wikidata_filter.py:106-108 | in type mode `breaker` keeps every row |
| WikidataFilter.DropClosing | wikidata/wikidata_filter.py:65-67 | a chunk ending in the closing `]` loses that line and no other |
| WikidataFilter.Routes | wikidata/wikidata_filter.py:70-72 | each line is routed by `filter_line` on the line without its trailing comma |
| WikidataFilter.Filter.constructor | wikidata/wikidata_filter.py:22-39 | the store starts with every found count at zero and an empty output file per row |
| WikidataFilter.Filter.Breaker | wikidata/wikidata_filter.py:94-111 | finished rows leave the store, the files are untouched, and the number of rows left is returned |
| WikidataFilter.Filter.Run | wikidata/wikidata_filter.py:57-92 | only the first chunk is read; each file gets exactly the lines routed to it, and in id mode the counts are added and finished rows dropped |
| WikidataFilter.Filter.WriteLines | wikidata/wikidata_filter.py:84-86 | each file receives its routed lines with a line break, in line order, and nothing else changes |
| WikidataFilter.RoutedNext | wikidata/wikidata_filter.py:84-86 | one more line adds itself only to the file it is routed to |
| WikidataFilter.KeptRowsValid | wikidata/wikidata_filter.py:110 | the rows `breaker` keeps still have unique names and open files |
| WikidataFilter.NewFilter | wikidata/wikidata_filter.py:9-39 | the choice is checked first, then each file is read in turn; on success the filter holds the store with zero counts |
| WikidataCleaner.English | wikidata/wikidata_cleaner.py:108-110 | the English values are exactly the values of the pairs whose language is `en` |
| WikidataCleaner.AllValues | wikidata/wikidata_cleaner.py:112-114 | the label values of every language, in order |
| WikidataCleaner.LexIrreflexive | wikidata/wikidata_cleaner.py:116 | Python's string `<` is irreflexive |
| WikidataCleaner.LexTransitive | wikidata/wikidata_cleaner.py:116 | Python's string `<` is transitive |
| WikidataCleaner.LexTotal | wikidata/wikidata_cleaner.py:116 | of two distinct strings one is less than the other |
| WikidataCleaner.BeatsTransitive | wikidata/wikidata_cleaner.py:116 | the order `idxmax` over grouped counts induces (more frequent, then smaller key) is transitive |
| WikidataCleaner.BeatsTotal | wikidata/wikidata_cleaner.py:116 | of two distinct values one wins |
| WikidataCleaner.PickBest | wikidata/wikidata_cleaner.py:116 | the scan picks a candidate that no other candidate beats |
| WikidataCleaner.MostFrequentMeaning | wikidata/wikidata_cleaner.py:112-116 | `labels.groupby(labels).count().idxmax()` is a label value, no value is more frequent, and an equally frequent other value is greater |
| WikidataCleaner.Label | wikidata/wikidata_cleaner.py:104-116 | the label is the first English label if there is one, and `""` when there are no labels |
| WikidataCleaner.LabelWithoutEnglish | wikidata/wikidata_cleaner.py:111-116 | without an English label, the label is one of the most frequent label values |
| WikidataCleaner.LabelCleaningIdempotent | wikidata/wikidata_cleaner.py:130-131 | unescaping `\"` and escaping `"` again is idempotent, so a cleaned label cleans to itself |
| WikidataCleaner.CellTexts | wikidata/wikidata_cleaner.py:135-137 | each cell is written as its own text, in order |
| WikidataCleaner.PlainText | wikidata/wikidata_cleaner.py:144-148 | a value used whole is written exactly when it is a plain value |
| WikidataCleaner.Field | wikidata/wikidata_cleaner.py:162-164 | `value[field]` succeeds exactly when the value is a record with that field |
| WikidataCleaner.SnakValues | wikidata/wikidata_cleaner.py:144-182 | the values of a claim's snaks are read in order, skipping snaks without a `datavalue`; the read succeeds exactly when no snak with a value is unreadable, and gives at most one text per snak |
| WikidataCleaner.SnakValuesFirstError | wikidata/wikidata_cleaner.py:144-182 | a failing read reports the error of the first unreadable snak: every earlier snak is readable or has no value |
| WikidataCleaner.FirstMalformedValueRaises | wikidata/wikidata_cleaner.py:174-182 | of two snaks, a plain one then a record without `id`, the read by `id` raises the first one's `TypeError` |
| WikidataCleaner.ClaimCells | wikidata/wikidata_cleaner.py:139-186 | every claim that is written fills exactly its columns (two for the coordinates, one otherwise); an absent claim gives empty columns and never raises, so only a present claim can raise |
| WikidataCleaner.ClaimErrors | wikidata/wikidata_cleaner.py:139-186 | one entry per claim of the dataset: the error writing it raises, if any |
| WikidataCleaner.ClaimsOutputError | wikidata/wikidata_cleaner.py:139-186 | writing a row's claims stops with the error of the first claim that raises |
| WikidataCleaner.ClaimsOutputStops | wikidata/wikidata_cleaner.py:139-186 | when a claim raises, the output stops right after that claim's `", "` separator |
| WikidataCleaner.ClaimsWhole | wikidata/wikidata_cleaner.py:139-186 | the claims of a row are written whole exactly when every claim can be written |
| WikidataCleaner.ClaimsOutput | wikidata/wikidata_cleaner.py:139-186 | the claim columns of one row up to the first claim that raises; its meaning is `ClaimsOutputError`, `ClaimsOutputStops`, `ClaimsWhole` and `RowColumns` |
| WikidataCleaner.RowColumns | wikidata/wikidata_cleaner.py:139-186 | a row written whole has as many claim columns as its dataset's claims take |
| WikidataCleaner.ColumnCountAppend | wikidata/wikidata_cleaner.py:139 | one more claim adds its own width to the row |
| WikidataCleaner.StaleCoordinatesAsWritten | wikidata/wikidata_cleaner.py:149-160 | as written, coordinates without a value repeat the previous claim's `output`, so the row is one column short |
| WikidataCleaner.StaleCoordinatesCorrected | wikidata/wikidata_cleaner.py:149-160 | the corrected model writes two empty columns there and the row keeps its width |
| WikidataCleaner.MailCells | wikidata/wikidata_cleaner.py:142-148 | an e-mail claim writes its value quoted after the separator |
| WikidataCleaner.SingleValue | wikidata/wikidata_cleaner.py:162-170 | a claim with one value reads that value |
| WikidataCleaner.StaleCoordinatesFirst | wikidata/wikidata_cleaner.py:149-160 | as written, coordinates without a value before any other claim raise `NameError` on `output` |
| WikidataCleaner.HumanHeaderMatches | wikidata/wikidata_cleaner.py:19-25 | the people header names as many columns as the people claims fill |
| WikidataCleaner.ProductsHeaderMatches | wikidata/wikidata_cleaner.py:67-68 | the products header names as many columns as the products claims fill |
| WikidataCleaner.OrganizationsHeaderMatches | wikidata/wikidata_cleaner.py:31-66 | the organizations header names as many columns as its claims fill, one more than there are claims because of the coordinates |
| WikidataCleaner.HeadColumns | wikidata/wikidata_cleaner.py:31-35 | the first twelve organization columns |
| WikidataCleaner.MiddleColumns | wikidata/wikidata_cleaner.py:35-39 | the next eleven organization columns |
| WikidataCleaner.TailColumns | wikidata/wikidata_cleaner.py:39-42 | the last eleven organization columns |
| WikidataCleaner.ColumnCountConcat | wikidata/wikidata_cleaner.py:139 | the width of two runs of claims is the sum of their widths |
| WikidataCleaner.CheckFiles | wikidata/wikidata_cleaner.py:71-81 | the argument is accepted exactly when it is a dictionary whose keys are all dataset names; each key becomes a job with its dataset and path |
| WikidataCleaner.Cleaner.constructor | wikidata/wikidata_cleaner.py:9-81 | a new cleaner holds the accepted jobs and has written no file |
| WikidataCleaner.RowOutput | wikidata/wikidata_cleaner.py:102-187 | one CSV row up to the first error; its meaning is `RowOutputMeaning` |
| WikidataCleaner.RowOutputMeaning | wikidata/wikidata_cleaner.py:102-187 | a row stops with the error of its first claim that raises; it is never empty, ends with its line break when written whole and with the failing claim's separator otherwise |
| WikidataCleaner.CleanedText | wikidata/wikidata_cleaner.py:93-188 | the text of a cleaned file always starts with the header line |
| WikidataCleaner.RowErrors | wikidata/wikidata_cleaner.py:96-188 | one entry per input line: the error its row raises, if any |
| WikidataCleaner.FirstErrorMeaning | wikidata/wikidata_cleaner.py:96-188 | a run of steps ends without error exactly when no step raised; otherwise its error is that of the first step that raised, every earlier step having succeeded |
| WikidataCleaner.CleanedTextError | wikidata/wikidata_cleaner.py:96-188 | cleaning a file stops with the error of its first line whose row raises, and ends without error exactly when every row is written whole |
| WikidataCleaner.CleanAll | wikidata/wikidata_cleaner.py:84-188 | output files are written only for the given datasets |
| WikidataCleaner.JobErrors | wikidata/wikidata_cleaner.py:84-188 | one entry per dataset: `FileNotFoundError` for an unreadable file, otherwise the error cleaning its file raises, if any |
| WikidataCleaner.CleanAllError | wikidata/wikidata_cleaner.py:84-188 | cleaning the datasets stops with the error of the first dataset that raises, and ends without error exactly when none does |
| WikidataCleaner.CleanAllNames | wikidata/wikidata_cleaner.py:84-188 | when no dataset raises, every dataset has its output file |
| WikidataCleaner.Cleaner.Clean | wikidata/wikidata_cleaner.py:83-188 | each dataset's file is cleaned in turn; the outputs are those of every dataset up to the first error, which is returned (corrected; see Findings) |
| WikidataCleaner.CleanFile | wikidata/wikidata_cleaner.py:89-188 | one file gives the header line and then a row per input line, up to the first error (corrected; see Findings) |
| WikidataCleaner.CleanedTextStop | wikidata/wikidata_cleaner.py:97-188 | once a line has raised, the later lines do not change the output |
| WikidataCleaner.CleanAllNext | wikidata/wikidata_cleaner.py:84-92 | one more dataset adds its cleaned file, or stops at `FileNotFoundError` when its file cannot be read |
| WikidataCleaner.CleanAllStop | wikidata/wikidata_cleaner.py:84-188 | once a dataset has raised, the later datasets do not change the outputs |
| WikidataCleaner.NewCleaner | wikidata/wikidata_cleaner.py:9-81 | construction raises `ValueError` exactly when the files are rejected, and otherwise gives a cleaner with no output |
| OsmCategory.NullIfEmpty | openstreetmap/src/eu/smartdatalake/athenarc/osmwrangle/utils/Category.java:50-53 | `s.isEmpty() ? null : s`: absent exactly for the empty string, the string itself otherwise |
| OsmCategory.Normalised | openstreetmap/src/eu/smartdatalake/athenarc/osmwrangle/utils/Category.java:49-54 | each field of a new category is absent exactly when its argument is empty, and otherwise holds the argument |
| OsmCategory.Show | openstreetmap/src/eu/smartdatalake/athenarc/osmwrangle/utils/Category.java:133 | Java's string conversion writes an absent string as `null` |
| OsmCategory.Category.constructor | openstreetmap/src/eu/smartdatalake/athenarc/osmwrangle/utils/Category.java:49-54 | the fields are the normalised arguments, and each `has` test holds exactly when its argument was not empty |
| OsmCategory.Category.SetUUID | openstreetmap/src/eu/smartdatalake/athenarc/osmwrangle/utils/Category.java:68-70 | only the UUID changes |
| OsmCategory.Category.PrintContents | openstreetmap/src/eu/smartdatalake/athenarc/osmwrangle/utils/Category.java:132-134 | the printed contents hold at least the two separating spaces |
| OsmCategory.PrintContentsSplit | openstreetmap/src/eu/smartdatalake/athenarc/osmwrangle/utils/Category.java:132-134 | when no field contains a space, splitting the printed contents at spaces gives back the identifier, the name and the parent |
| OsmClassification.LeadingSpaces | openstreetmap/src/eu/smartdatalake/athenarc/osmwrangle/utils/Classification.java:121-126 | the count stops at the first character that is not the indentation character, and every counted one is |
| OsmClassification.CountIndent | openstreetmap/src/eu/smartdatalake/athenarc/osmwrangle/utils/Classification.java:121-126 | the loop counts exactly the leading indentation characters |
| OsmClassification.SplitFirst | openstreetmap/src/eu/smartdatalake/athenarc/osmwrangle/utils/Classification.java:138 | `split("#", 2)` gives two parts exactly when `#` occurs, split at its first occurrence |
| OsmClassification.ReadYmlLine | openstreetmap/src/eu/smartdatalake/athenarc/osmwrangle/utils/Classification.java:116-145 | an accepted line is at most `MAX_LEVELS` deep |
| OsmClassification.ReadYmlLineParts | openstreetmap/src/eu/smartdatalake/athenarc/osmwrangle/utils/Classification.java:116-145 | a line's level is half its leading spaces; name and identifier hold no `#`; a non-blank line is fatal exactly when it is too deep or has no `#` |
| OsmClassification.NoLevels | openstreetmap/src/eu/smartdatalake/athenarc/osmwrangle/utils/Classification.java:101 | a fresh level array has `MAX_LEVELS + 1` empty slots |
| OsmClassification.YmlApply | openstreetmap/src/eu/smartdatalake/athenarc/osmwrangle/utils/Classification.java:152-198 | applying a line keeps the level array's size |
| OsmClassification.YmlStep | openstreetmap/src/eu/smartdatalake/athenarc/osmwrangle/utils/Classification.java:111-198 | reading and applying a line keeps the level array's size |
| OsmClassification.YmlFrom | openstreetmap/src/eu/smartdatalake/athenarc/osmwrangle/utils/Classification.java:111-199 | applying the remaining lines keeps the level array's size |
| OsmClassification.YmlParse | openstreetmap/src/eu/smartdatalake/athenarc/osmwrangle/utils/Classification.java:98-206 | a parse that succeeds had lines and found at least one category |
| OsmClassification.YmlNested | openstreetmap/src/eu/smartdatalake/athenarc/osmwrangle/utils/Classification.java:171-198 | a nested line is accepted exactly when a category is recorded one level up and the line has an identifier; that category becomes its parent and it takes its own level |
| OsmClassification.YmlTopTier | openstreetmap/src/eu/smartdatalake/athenarc/osmwrangle/utils/Classification.java:153-168 | a top-tier line is accepted exactly when it has an identifier; it has no parent and clears every deeper level |
| OsmClassification.YmlStaleParent | openstreetmap/src/eu/smartdatalake/athenarc/osmwrangle/utils/Classification.java:166-198 | deeper levels are not cleared by a nested line, so a line three levels down after a new level-one sibling is attached to the earlier sibling's child |
| OsmClassification.YmlApplyValid | openstreetmap/src/eu/smartdatalake/athenarc/osmwrangle/utils/Classification.java:152-198 | each accepted line keeps every category's identifier non-empty and its UUID recorded |
| OsmClassification.YmlFromValid | openstreetmap/src/eu/smartdatalake/athenarc/osmwrangle/utils/Classification.java:111-199 | the whole YML parse keeps that invariant |
| OsmClassification.CsvPairs | openstreetmap/src/eu/smartdatalake/athenarc/osmwrangle/utils/Classification.java:248-298 | a record fails exactly when an odd number of fields remain, on its last incomplete pair, as a reading failure |
| OsmClassification.CsvParse | openstreetmap/src/eu/smartdatalake/athenarc/osmwrangle/utils/Classification.java:225-305 | a parse that succeeds found at least one category |
| OsmClassification.CsvPairEffect | openstreetmap/src/eu/smartdatalake/athenarc/osmwrangle/utils/Classification.java:250-287 | a pair with a blank name or identifier changes nothing; otherwise it becomes the next parent, a category with the same name and identifier is kept, and any other is replaced by the new category with its UUID |
| OsmClassification.CsvAcceptEffect | openstreetmap/src/eu/smartdatalake/athenarc/osmwrangle/utils/Classification.java:255-287 | the same effect on the trimmed identifier and name |
| OsmClassification.CsvAcceptValid | openstreetmap/src/eu/smartdatalake/athenarc/osmwrangle/utils/Classification.java:264-287 | an accepted pair keeps every identifier non-empty with its UUID recorded |
| OsmClassification.CsvPairsValid | openstreetmap/src/eu/smartdatalake/athenarc/osmwrangle/utils/Classification.java:248-298 | the pairs of a record keep that invariant |
| OsmClassification.CsvFromValid | openstreetmap/src/eu/smartdatalake/athenarc/osmwrangle/utils/Classification.java:243-299 | the whole CSV parse keeps that invariant |
| OsmClassification.ReadLine | openstreetmap/src/eu/smartdatalake/athenarc/osmwrangle/utils/Classification.java:116-145 | the imperative line reader agrees with the line's specification |
| OsmClassification.NewLevels | openstreetmap/src/eu/smartdatalake/athenarc/osmwrangle/utils/Classification.java:101 | `new Category[MAX_LEVELS + 1]` records no category at any level |
| OsmClassification.Classification.Entries | openstreetmap/src/eu/smartdatalake/athenarc/osmwrangle/utils/Classification.java:63 | the fields of the categories, by the same names |
| OsmClassification.Classification.constructor | openstreetmap/src/eu/smartdatalake/athenarc/osmwrangle/utils/Classification.java:63-68 | both dictionaries start empty |
| OsmClassification.Classification.Search | openstreetmap/src/eu/smartdatalake/athenarc/osmwrangle/utils/Classification.java:322-327 | `search` finds the category stored under the name, and null exactly when there is none |
| OsmClassification.Classification.GetUUID | openstreetmap/src/eu/smartdatalake/athenarc/osmwrangle/utils/Classification.java:335-340 | `getUUID` gives the UUID of the category stored under the name, and null when there is none |
| OsmClassification.Classification.FindUUID | openstreetmap/src/eu/smartdatalake/athenarc/osmwrangle/utils/Classification.java:347-352 | `findUUID` gives the UUID recorded for the identifier, and null exactly when there is none |
| OsmClassification.Classification.CountCategories | openstreetmap/src/eu/smartdatalake/athenarc/osmwrangle/utils/Classification.java:359-361 | the number of distinct category names |
| OsmClassification.Classification.Put | openstreetmap/src/eu/smartdatalake/athenarc/osmwrangle/utils/Classification.java:156-157 | the category is stored under its name and its UUID under its identifier, and nothing else changes |
| OsmClassification.Classification.Step | openstreetmap/src/eu/smartdatalake/athenarc/osmwrangle/utils/Classification.java:111-198 | one line of the loop updates the dictionaries and the level array as its specification says, or reports the same fatal error |
| OsmClassification.Classification.Apply | openstreetmap/src/eu/smartdatalake/athenarc/osmwrangle/utils/Classification.java:152-198 | one parsed line updates the dictionaries and the level array as its specification says |
| OsmClassification.Classification.ApplyTop | openstreetmap/src/eu/smartdatalake/athenarc/osmwrangle/utils/Classification.java:153-168 | a top-tier line stores its category and replaces the level array by a fresh one holding only it |
| OsmClassification.Classification.ApplyNested | openstreetmap/src/eu/smartdatalake/athenarc/osmwrangle/utils/Classification.java:171-198 | a nested line stores its category under the parent one level up and records it at its level |
| OsmClassification.Classification.ParseYml | openstreetmap/src/eu/smartdatalake/athenarc/osmwrangle/utils/Classification.java:98-214 | `parseYMLFile` leaves the dictionaries the YML specification gives, or fails with its fatal error |
| OsmClassification.Classification.ParseCsv | openstreetmap/src/eu/smartdatalake/athenarc/osmwrangle/utils/Classification.java:225-314 | `parseCSVFile` leaves the dictionaries the CSV specification gives, or fails with its fatal error |
| OsmClassification.Classification.ParseRecord | openstreetmap/src/eu/smartdatalake/athenarc/osmwrangle/utils/Classification.java:246-298 | the pairs of one record, left to right, with the record's specification |
| OsmClassification.Classification.AddPair | openstreetmap/src/eu/smartdatalake/athenarc/osmwrangle/utils/Classification.java:250-287 | one pair updates the dictionaries and returns the next parent as its specification says |
| OsmClassification.NewClassification | openstreetmap/src/eu/smartdatalake/athenarc/osmwrangle/utils/Classification.java:75-90 | a `.yml` file is parsed by lines, a `.csv` file by records, and any other name is fatal |
| OsmClassification.YmlLookupsAgree | openstreetmap/src/eu/smartdatalake/athenarc/osmwrangle/utils/Classification.java:98-214 | every category a YML parse stores has an identifier whose UUID `findUUID` finds |
| OsmClassification.CsvLookupsAgree | openstreetmap/src/eu/smartdatalake/athenarc/osmwrangle/utils/Classification.java:225-314 | every category a CSV parse stores has an identifier whose UUID `findUUID` finds |
| OsmConfiguration.InInt32 | openstreetmap/src/eu/smartdatalake/athenarc/osmwrangle/utils/Configuration.java:148 | a value is kept exactly when it lies in Java's 32-bit `int` range |
| OsmConfiguration.ParseInt | openstreetmap/src/eu/smartdatalake/athenarc/osmwrangle/utils/Configuration.java:148 | `Integer.parseInt` accepts only non-empty text and gives a 32-bit value |
| OsmConfiguration.ParseIntToString | openstreetmap/src/eu/smartdatalake/athenarc/osmwrangle/utils/Configuration.java:148 | parsing the decimal notation of any 32-bit integer gives it back |
| OsmConfiguration.BatchSize | openstreetmap/src/eu/smartdatalake/athenarc/osmwrangle/utils/Configuration.java:146-151 | a batch size in [1, 1000] is kept and any other is replaced by the default 10 |
| OsmConfiguration.KeyName | openstreetmap/src/eu/smartdatalake/athenarc/osmwrangle/utils/Configuration.java:129-168 | every property key has a non-empty name |
| OsmConfiguration.SettingTrimmed | openstreetmap/src/eu/smartdatalake/athenarc/osmwrangle/utils/Configuration.java:129-130 | a setting is present exactly when its property is neither missing nor empty, and it is the property without surrounding whitespace |
| OsmConfiguration.Override | openstreetmap/src/eu/smartdatalake/athenarc/osmwrangle/utils/Configuration.java:129-131 | a present setting replaces the field; an absent one leaves it |
| OsmConfiguration.WithOutputDir | openstreetmap/src/eu/smartdatalake/athenarc/osmwrangle/utils/Configuration.java:132-137 | the output directory, when set, is the trimmed property with a trailing slash unless it already ends in one; a property of blanks fails on `charAt(-1)`; nothing else changes |
| OsmConfiguration.WithBatchSize | openstreetmap/src/eu/smartdatalake/athenarc/osmwrangle/utils/Configuration.java:146-156 | a set batch size must parse as an integer, else the run aborts; a parsed one ends in [1, 1000]; nothing else changes |
| OsmConfiguration.InputFilesEffect | openstreetmap/src/eu/smartdatalake/athenarc/osmwrangle/utils/Configuration.java:129-131 | only the input files change, and only when their property is set |
| OsmConfiguration.PathsEffect | openstreetmap/src/eu/smartdatalake/athenarc/osmwrangle/utils/Configuration.java:138-143 | only the temporary directory and the mapping file change, each only when its property is set |
| OsmConfiguration.SourcesEffect | openstreetmap/src/eu/smartdatalake/athenarc/osmwrangle/utils/Configuration.java:159-169 | only the feature source and the two reference systems change, each only when its property is set |
| OsmConfiguration.InitializedFails | openstreetmap/src/eu/smartdatalake/athenarc/osmwrangle/utils/Configuration.java:126-171 | initialisation fails exactly on a blank output directory or a batch size that is not an integer |
| OsmConfiguration.InitializedPlainSettings | openstreetmap/src/eu/smartdatalake/athenarc/osmwrangle/utils/Configuration.java:126-171 | on success every present plain property replaces its field by its trimmed value and every other field stays |
| OsmConfiguration.InitializedNormalised | openstreetmap/src/eu/smartdatalake/athenarc/osmwrangle/utils/Configuration.java:132-156 | on success the output directory starts with the property and ends with a slash, and a batch size in range stays in range |
| OsmConfiguration.InitializedWithoutProperties | openstreetmap/src/eu/smartdatalake/athenarc/osmwrangle/utils/Configuration.java:109-119 | with no properties (an unreadable file) nothing changes |
| OsmConfiguration.Configuration.constructor | openstreetmap/src/eu/smartdatalake/athenarc/osmwrangle/utils/Configuration.java:41-92 | nothing is set and the batch size is the default 10 |
| OsmConfiguration.Configuration.InitializeParameters | openstreetmap/src/eu/smartdatalake/athenarc/osmwrangle/utils/Configuration.java:126-171 | the fields end as the initialisation specification gives, or the failure it names is returned |
| OsmConfiguration.Configuration.Store | openstreetmap/src/eu/smartdatalake/athenarc/osmwrangle/utils/Configuration.java:126-171 | the fields become the given settings |
| OsmConfiguration.Configuration.BuildConfiguration | openstreetmap/src/eu/smartdatalake/athenarc/osmwrangle/utils/Configuration.java:109-119 | a properties file that could not be read only warns, and the fields are initialised from no properties |
| OsmAssistant.NotificationsApart | openstreetmap/src/eu/smartdatalake/athenarc/osmwrangle/utils/Assistant.java:192-196 | progress is reported once every thousand records: never again within fewer than a thousand, and again a thousand later |
| OsmAssistant.GetLanguage | openstreetmap/src/eu/smartdatalake/athenarc/osmwrangle/utils/Assistant.java:832-838 | the tag exists exactly when the attribute is longer than `i`, and it is the attribute's suffix from `i` |
| OsmAssistant.Concatenate | openstreetmap/src/eu/smartdatalake/athenarc/osmwrangle/utils/Assistant.java:856-859 | the joined value is at most the two values plus the two spaces long |
| OsmAssistant.TrimTrimmed | openstreetmap/src/eu/smartdatalake/athenarc/osmwrangle/utils/Assistant.java:858 | a string that neither starts nor ends with whitespace trims to itself |
| OsmAssistant.ConcatenateTrimmed | openstreetmap/src/eu/smartdatalake/athenarc/osmwrangle/utils/Assistant.java:856-859 | two non-empty values without surrounding whitespace are joined by exactly two spaces |
| OsmAssistant.ConcatenateEmpty | openstreetmap/src/eu/smartdatalake/athenarc/osmwrangle/utils/Assistant.java:856-859 | joining an empty second value gives the trimmed first value |
| OsmAssistant.TrimAppendSpaces | openstreetmap/src/eu/smartdatalake/athenarc/osmwrangle/utils/Assistant.java:858 | trailing whitespace makes no difference to a trim |
| OsmAssistant.TrimStartAppend | openstreetmap/src/eu/smartdatalake/athenarc/osmwrangle/utils/Assistant.java:858 | trimming the start of a text that has a non-blank character is unaffected by what follows |
| OsmAssistant.TrimEndAppendSpaces | openstreetmap/src/eu/smartdatalake/athenarc/osmwrangle/utils/Assistant.java:858 | appended whitespace is removed by trimming the end |
| OsmAssistant.WithTrailingSlash | openstreetmap/src/eu/smartdatalake/athenarc/osmwrangle/utils/Assistant.java:319-322 | the path fails exactly when empty (`charAt(-1)`); otherwise it is kept and ends with the separator or `/`, adding at most one character |
| OsmAssistant.TrailingSlashIdempotent | openstreetmap/src/eu/smartdatalake/athenarc/osmwrangle/utils/Assistant.java:319-322 | normalising the trailing slash twice is normalising it once |
| OsmAssistant.Assistant.constructor | openstreetmap/src/eu/smartdatalake/athenarc/osmwrangle/utils/Assistant.java:99-105 | the serial counter starts at 1 |
| OsmAssistant.Assistant.GetNextSerial | openstreetmap/src/eu/smartdatalake/athenarc/osmwrangle/utils/Assistant.java:732-734 | returns the counter and advances it by one |
| OsmAssistant.Assistant.GetUUID | openstreetmap/src/eu/smartdatalake/athenarc/osmwrangle/utils/Assistant.java:743-761 | the UUID is the name-based hash of the source and the identifier; a null identifier is replaced by the next serial, which is then consumed |
| OsmAssistant.Assistant.DrawSerials | openstreetmap/src/eu/smartdatalake/athenarc/osmwrangle/utils/Assistant.java:732-734 | successive calls return consecutive numbers from the counter |
| OsmAssistant.Assistant.CreateDirectory | openstreetmap/src/eu/smartdatalake/athenarc/osmwrangle/utils/Assistant.java:317-330 | the temporary directory is the path with its trailing slash, the random UUID and `/`; an empty path fails |
| OsmCsvConverter.NewlinesToSpaces | openstreetmap/src/eu/smartdatalake/athenarc/osmwrangle/utils/OsmCsvConverter.java:123 | no line break is left; text without one is unchanged, and no delimiter bar is introduced |
| OsmCsvConverter.ReplaceCharWithout | openstreetmap/src/eu/smartdatalake/athenarc/osmwrangle/utils/OsmCsvConverter.java:123 | replacing one character never introduces a character absent from the text and the replacement |
| OsmCsvConverter.FormatString | openstreetmap/src/eu/smartdatalake/athenarc/osmwrangle/utils/OsmCsvConverter.java:122-124 | `formatString`: line breaks become spaces, the delimiter bar becomes `;`, then trimmed (see `FormatStringSafe`, `FormatStringIdempotent`) |
| OsmCsvConverter.FormatStringSafe | openstreetmap/src/eu/smartdatalake/athenarc/osmwrangle/utils/OsmCsvConverter.java:122-124 | a formatted value holds no delimiter bar and no line break, so it stays one field of one line |
| OsmCsvConverter.FormatStringIdempotent | openstreetmap/src/eu/smartdatalake/athenarc/osmwrangle/utils/OsmCsvConverter.java:122-124 | formatting twice is formatting once |
| OsmCsvConverter.DropTrailingEmpty | openstreetmap/src/eu/smartdatalake/athenarc/osmwrangle/utils/OsmCsvConverter.java:76 | the kept pieces are a prefix, end with a non-empty piece, and only empty pieces are dropped |
| OsmCsvConverter.JavaSplit | openstreetmap/src/eu/smartdatalake/athenarc/osmwrangle/utils/OsmCsvConverter.java:76 | `split(",")` gives the string itself when it has no comma, and no piece holds a comma |
| OsmCsvConverter.TrimAll | openstreetmap/src/eu/smartdatalake/athenarc/osmwrangle/utils/OsmCsvConverter.java:79 | each piece trimmed, one for one |
| OsmCsvConverter.TagParts | openstreetmap/src/eu/smartdatalake/athenarc/osmwrangle/utils/OsmCsvConverter.java:76 | no piece of a mapping value holds a comma |
| OsmCsvConverter.ParseEntries | openstreetmap/src/eu/smartdatalake/athenarc/osmwrangle/utils/OsmCsvConverter.java:74-76 | one entry per property of the mapping file |
| OsmCsvConverter.Columns | openstreetmap/src/eu/smartdatalake/athenarc/osmwrangle/utils/OsmCsvConverter.java:75 | one output column per property, in order |
| OsmCsvConverter.PutTrimmedSnoc | openstreetmap/src/eu/smartdatalake/athenarc/osmwrangle/utils/OsmCsvConverter.java:78-80 | one more piece maps its trimmed text to the column |
| OsmCsvConverter.ReadSnoc | openstreetmap/src/eu/smartdatalake/athenarc/osmwrangle/utils/OsmCsvConverter.java:74-81 | one more property appends its key to the columns and maps its tags to it |
| OsmCsvConverter.PutTagsEffect | openstreetmap/src/eu/smartdatalake/athenarc/osmwrangle/utils/OsmCsvConverter.java:78-80 | a put maps exactly the listed tags to the column and leaves every other tag as it was |
| OsmCsvConverter.MappingTargetsColumns | openstreetmap/src/eu/smartdatalake/athenarc/osmwrangle/utils/OsmCsvConverter.java:74-81 | every mapped tag goes to a column of the mapping, or keeps its earlier target |
| OsmCsvConverter.MappingLastWins | openstreetmap/src/eu/smartdatalake/athenarc/osmwrangle/utils/OsmCsvConverter.java:74-81 | a tag named by several properties goes to the column of the last one read |
| OsmCsvConverter.MappingUnnamed | openstreetmap/src/eu/smartdatalake/athenarc/osmwrangle/utils/OsmCsvConverter.java:74-81 | a tag no property names keeps its old mapping or stays unmapped |
| OsmCsvConverter.JoinAppend | openstreetmap/src/eu/smartdatalake/athenarc/osmwrangle/utils/OsmCsvConverter.java:110 | `String.join` of two non-empty lists is the two joins around the delimiter |
| OsmCsvConverter.Header | openstreetmap/src/eu/smartdatalake/athenarc/osmwrangle/utils/OsmCsvConverter.java:110 | the header as written (see `HeaderAgrees`, `HeaderWithoutColumns`) |
| OsmCsvConverter.HeaderAgrees | openstreetmap/src/eu/smartdatalake/athenarc/osmwrangle/utils/OsmCsvConverter.java:110 | with at least one column the header as written is the corrected header |
| OsmCsvConverter.JoinAround | openstreetmap/src/eu/smartdatalake/athenarc/osmwrangle/utils/OsmCsvConverter.java:110 | joining three non-empty parts in two steps is joining them at once |
| OsmCsvConverter.CorrectedHeaderFields | openstreetmap/src/eu/smartdatalake/athenarc/osmwrangle/utils/OsmCsvConverter.java:110 | the corrected header has the base fields, then one field per column, then `OTHER_TAGS` |
| OsmCsvConverter.BaseHeaderSafe | openstreetmap/src/eu/smartdatalake/athenarc/osmwrangle/utils/OsmCsvConverter.java:110 | no base header field holds the delimiter |
| OsmCsvConverter.HeaderWithoutColumns | openstreetmap/src/eu/smartdatalake/athenarc/osmwrangle/utils/OsmCsvConverter.java:83-110 | as written, a converter without columns writes an empty header field before `OTHER_TAGS`, one field more than its rows have |
| OsmCsvConverter.BlankColumns | openstreetmap/src/eu/smartdatalake/athenarc/osmwrangle/utils/OsmCsvConverter.java:170-173 | every column starts with the empty value, and there is no other entry |
| OsmCsvConverter.MappedValues | openstreetmap/src/eu/smartdatalake/athenarc/osmwrangle/utils/OsmCsvConverter.java:176-192 | the values gathered for a column are non-empty |
| OsmCsvConverter.JoinNonEmpty | openstreetmap/src/eu/smartdatalake/athenarc/osmwrangle/utils/OsmCsvConverter.java:183-189 | a join of non-empty values is empty only when there are none |
| OsmCsvConverter.JoinSnoc | openstreetmap/src/eu/smartdatalake/athenarc/osmwrangle/utils/OsmCsvConverter.java:188 | appending a value after a non-empty join adds the separator and the value |
| OsmCsvConverter.FillJoins | openstreetmap/src/eu/smartdatalake/athenarc/osmwrangle/utils/OsmCsvConverter.java:176-192 | when every mapped tag goes to a column, filling succeeds and each column holds the `;`-join of the non-empty values of its tags, in visiting order |
| OsmCsvConverter.FillSucceeds | openstreetmap/src/eu/smartdatalake/athenarc/osmwrangle/utils/OsmCsvConverter.java:176-192 | when every mapped tag goes to a column, filling succeeds and keeps one entry per column |
| OsmCsvConverter.Unmapped | openstreetmap/src/eu/smartdatalake/athenarc/osmwrangle/utils/OsmCsvConverter.java:191-198 | the remaining tags are exactly the record's tags minus the visited keys |
| OsmCsvConverter.ColumnFields | openstreetmap/src/eu/smartdatalake/athenarc/osmwrangle/utils/OsmCsvConverter.java:194-196 | one formatted field per column |
| OsmCsvConverter.FormatColumns | openstreetmap/src/eu/smartdatalake/athenarc/osmwrangle/utils/OsmCsvConverter.java:194-196 | the loop over the columns gives each column's formatted value, in column order |
| OsmCsvConverter.FillSnoc | openstreetmap/src/eu/smartdatalake/athenarc/osmwrangle/utils/OsmCsvConverter.java:176-192 | one more visited key applies its step and leaves its tag out of the remaining ones |
| OsmCsvConverter.FillFailureStays | openstreetmap/src/eu/smartdatalake/athenarc/osmwrangle/utils/OsmCsvConverter.java:176-192 | once filling fails, it fails for every longer visiting order |
| OsmCsvConverter.FillKeepsKeys | openstreetmap/src/eu/smartdatalake/athenarc/osmwrangle/utils/OsmCsvConverter.java:176-192 | filling keeps the set of columns |
| OsmCsvConverter.Convert | openstreetmap/src/eu/smartdatalake/athenarc/osmwrangle/utils/OsmCsvConverter.java:137-201 | what `parse` does with one record: skipped without a category, rejected without a geometry or when a mapped tag has no column, otherwise written (see `ConvertWritten`, `RowFields`) |
| OsmCsvConverter.ConvertWritten | openstreetmap/src/eu/smartdatalake/athenarc/osmwrangle/utils/OsmCsvConverter.java:149-201 | a record with a category and a geometry whose fill succeeds is written as its fields joined by the delimiter bar |
| OsmCsvConverter.ColumnFieldsSafe | openstreetmap/src/eu/smartdatalake/athenarc/osmwrangle/utils/OsmCsvConverter.java:194-196 | no formatted column holds the delimiter |
| OsmCsvConverter.NoBarAppend | openstreetmap/src/eu/smartdatalake/athenarc/osmwrangle/utils/OsmCsvConverter.java:161-199 | fields without the delimiter stay so when concatenated |
| OsmCsvConverter.SplitAround | openstreetmap/src/eu/smartdatalake/athenarc/osmwrangle/utils/OsmCsvConverter.java:201 | splitting at a separator splits both sides |
| OsmCsvConverter.RowShape | openstreetmap/src/eu/smartdatalake/athenarc/osmwrangle/utils/OsmCsvConverter.java:157-201 | a row splits back into the seven leading fields with the category split in two, the columns and the other tags |
| OsmCsvConverter.RowFields | openstreetmap/src/eu/smartdatalake/athenarc/osmwrangle/utils/OsmCsvConverter.java:137-215 | a categorised record with a geometry is written, and its row splits into the identifier, the name (`null` when absent), main and sub category, coordinates (`0.0` for an empty geometry), SRID, WKT, the columns and the other tags, as many fields as the corrected header |
| OsmCsvConverter.ColumnFieldValues | openstreetmap/src/eu/smartdatalake/athenarc/osmwrangle/utils/OsmCsvConverter.java:176-196 | each column field is the formatted `;`-join of the non-empty values of its tags in visiting order |
| OsmCsvConverter.ReplaceCharSplice | openstreetmap/src/eu/smartdatalake/athenarc/osmwrangle/utils/OsmCsvConverter.java:157 | replacing the one `_` of a category splices the delimiter between its parts |
| OsmCsvConverter.ReplaceCharAppend | openstreetmap/src/eu/smartdatalake/athenarc/osmwrangle/utils/OsmCsvConverter.java:123 | replacing a character distributes over concatenation |
| OsmCsvConverter.FlattenSecond | openstreetmap/src/eu/smartdatalake/athenarc/osmwrangle/utils/OsmCsvConverter.java:157-201 | a field holding the delimiter joins like two fields |
| OsmCsvConverter.IntToStringNoBar | openstreetmap/src/eu/smartdatalake/athenarc/osmwrangle/utils/OsmCsvConverter.java:167 | the decimal text of the SRID holds no delimiter |
| OsmCsvConverter.PutTrimmed | openstreetmap/src/eu/smartdatalake/athenarc/osmwrangle/utils/OsmCsvConverter.java:78-80 | the loop over the pieces maps each trimmed piece to the column |
| OsmCsvConverter.Converter.constructor | openstreetmap/src/eu/smartdatalake/athenarc/osmwrangle/utils/OsmCsvConverter.java:93-117 | the columns and the tag map are those the mapping file gives, the header is the only row, and both counters are zero (corrected; see Findings) |
| OsmCsvConverter.Converter.ReadAttrMappingFile | openstreetmap/src/eu/smartdatalake/athenarc/osmwrangle/utils/OsmCsvConverter.java:67-86 | each property appends its key to the columns and maps each tag of its value to that key |
| OsmCsvConverter.Converter.ReadProperty | openstreetmap/src/eu/smartdatalake/athenarc/osmwrangle/utils/OsmCsvConverter.java:74-81 | one property appends its key and maps its trimmed pieces to it |
| OsmCsvConverter.Converter.Parse | openstreetmap/src/eu/smartdatalake/athenarc/osmwrangle/utils/OsmCsvConverter.java:137-215 | a record without a category changes nothing; a failing one is counted as rejected; otherwise its row is appended and counted |
| OsmCsvConverter.Converter.FillColumns | openstreetmap/src/eu/smartdatalake/athenarc/osmwrangle/utils/OsmCsvConverter.java:170-192 | the loop over the tag map fills the columns as specified and leaves exactly the unvisited tags |
| OsmXml.Promote | openstreetmap/src/eu/smartdatalake/athenarc/osmwrangle/tools/OsmXmlToRdf.java:454-460 | `index.putAll(tmp)` of null values adds exactly the temporary keys, with no geometry, and keeps every other entry |
| OsmXml.PutIfPresent | openstreetmap/src/eu/smartdatalake/athenarc/osmwrangle/tools/OsmXmlToRdf.java:449-450 | a geometry is stored only under a key already in the index, so the keys never change |
| OsmXml.IndexedGeometries | openstreetmap/src/eu/smartdatalake/athenarc/osmwrangle/tools/OsmXmlToRdf.java:465-473 | the geometries of a way's node references that are in the node index, in reference order (see `IndexedGeometriesCount`) |
| OsmXml.IndexedGeometriesCount | openstreetmap/src/eu/smartdatalake/athenarc/osmwrangle/tools/OsmXmlToRdf.java:465-473 | a way collects at most one geometry per node reference: none when no reference is indexed, and exactly each indexed geometry in order when all are |
| OsmXml.AllGeometries | openstreetmap/src/eu/smartdatalake/athenarc/osmwrangle/tools/OsmXmlToRdf.java:474 | the geometries are usable exactly when none is null, and then they are the same geometries in order |
| OsmXml.Points | openstreetmap/src/eu/smartdatalake/athenarc/osmwrangle/tools/OsmXmlToRdf.java:465-473 | one point geometry per node position |
| OsmXml.CoordinatesOfPoints | openstreetmap/src/eu/smartdatalake/athenarc/osmwrangle/tools/OsmXmlToRdf.java:476 | the coordinates of the points of a way are the node positions |
| OsmXml.WayShape | openstreetmap/src/eu/smartdatalake/athenarc/osmwrangle/tools/OsmXmlToRdf.java:476-510 | the shape of a way from its points (see `WayShapeOfPoints`) |
| OsmXml.WayShapeOfPoints | openstreetmap/src/eu/smartdatalake/athenarc/osmwrangle/tools/OsmXmlToRdf.java:476-510 | a way becomes a polygon exactly when it has more than three points and a closed ring, a line string when it has more than one point otherwise, and a point else |
| OsmXml.RetryOne | openstreetmap/src/eu/smartdatalake/athenarc/osmwrangle/tools/OsmXmlToRdf.java:291-307 | one relation of the second pass: kept when it cannot be built, otherwise converted and indexed by its second-pass key, failing when it has none (see `RetryAllUnfold`) |
| OsmXml.RetryAll | openstreetmap/src/eu/smartdatalake/athenarc/osmwrangle/tools/OsmXmlToRdf.java:289-310 | the second pass over the incomplete relations in list order; after a failure the rest stay in the list (see `RetryAllAccounts`, `RetryAllBuilt`) |
| OsmXml.RetryAllAccounts | openstreetmap/src/eu/smartdatalake/athenarc/osmwrangle/tools/OsmXmlToRdf.java:289-310 | every re-examined relation is built or stays in the list; a pass that does not fail builds each at most once, counts named ones among the built, and adds no index key |
| OsmXml.RetryAllBuilt | openstreetmap/src/eu/smartdatalake/athenarc/osmwrangle/tools/OsmXmlToRdf.java:289-310 | when every relation builds, the second pass empties the list and builds each one |
| OsmXml.RetryAllUnfold | openstreetmap/src/eu/smartdatalake/athenarc/osmwrangle/tools/OsmXmlToRdf.java:289-310 | one step of the iterator loop, and a failure leaves the rest of the list in place |
| OsmXml.Plan | openstreetmap/src/eu/smartdatalake/athenarc/osmwrangle/tools/OsmXmlToRdf.java:232-286 | `parseDocument` reads the file four times when a second relation scan is asked for, three times otherwise |
| OsmXml.OsmXmlToRdf.constructor | openstreetmap/src/eu/smartdatalake/athenarc/osmwrangle/tools/OsmXmlToRdf.java:136-200 | without a target CRS the output SRID is 4326; the way and relation scans start enabled, the relation rescan, the tag-based indexing and the element flags start off, and the counters and outputs start empty |
| OsmXml.OsmXmlToRdf.StartNode | openstreetmap/src/eu/smartdatalake/athenarc/osmwrangle/tools/OsmXmlToRdf.java:339-353 | a node start in the parse phase opens a new node at its parsed position |
| OsmXml.OsmXmlToRdf.StartWay | openstreetmap/src/eu/smartdatalake/athenarc/osmwrangle/tools/OsmXmlToRdf.java:354-369 | in the way scan a referenced way sets `keepIndexed`; in the parse phase a new way is opened |
| OsmXml.OsmXmlToRdf.StartRelation | openstreetmap/src/eu/smartdatalake/athenarc/osmwrangle/tools/OsmXmlToRdf.java:370-385 | a relation already in the relation index sets `keepIndexed`; in the parse phase a new relation is opened |
| OsmXml.OsmXmlToRdf.NodeRef | openstreetmap/src/eu/smartdatalake/athenarc/osmwrangle/tools/OsmXmlToRdf.java:386-391 | a node reference goes to the temporary node index during a scan and to the current way in the parse phase |
| OsmXml.OsmXmlToRdf.Tag | openstreetmap/src/eu/smartdatalake/athenarc/osmwrangle/tools/OsmXmlToRdf.java:392-411 | a tag only decides `keepIndexed` during a scan, and is stored cleaned on the current element in the parse phase |
| OsmXml.OsmXmlToRdf.MemberRef | openstreetmap/src/eu/smartdatalake/athenarc/osmwrangle/tools/OsmXmlToRdf.java:412-423 | a member reference goes to the temporary index of its type during a scan, and to the current relation in the parse phase |
| OsmXml.OsmXmlToRdf.Start | openstreetmap/src/eu/smartdatalake/athenarc/osmwrangle/tools/OsmXmlToRdf.java:335-429 | `startElement` attaches nothing to an element during a scan and adds no index key in the parse phase |
| OsmXml.OsmXmlToRdf.EndNode | openstreetmap/src/eu/smartdatalake/athenarc/osmwrangle/tools/OsmXmlToRdf.java:443-453 | a node end converts a named node, stores a referenced node's geometry and counts the node |
| OsmXml.OsmXmlToRdf.EndWayScan | openstreetmap/src/eu/smartdatalake/athenarc/osmwrangle/tools/OsmXmlToRdf.java:454-460 | the node references of a wanted or referenced way are promoted into the node index; the temporary index and the flag are cleared |
| OsmXml.OsmXmlToRdf.CollectGeometries | openstreetmap/src/eu/smartdatalake/athenarc/osmwrangle/tools/OsmXmlToRdf.java:463-473 | the geometries of a way's indexed node references, in order |
| OsmXml.OsmXmlToRdf.EndWayParse | openstreetmap/src/eu/smartdatalake/athenarc/osmwrangle/tools/OsmXmlToRdf.java:461-523 | a way takes the shape of its indexed nodes; a named way is converted, a referenced way's geometry stored, and the way counted |
| OsmXml.OsmXmlToRdf.EndRelationScan | openstreetmap/src/eu/smartdatalake/athenarc/osmwrangle/tools/OsmXmlToRdf.java:525-538 | the temporary indices are promoted exactly when the relation is wanted, and a kept reference to another relation asks for a second scan |
| OsmXml.OsmXmlToRdf.EndRelationParse | openstreetmap/src/eu/smartdatalake/athenarc/osmwrangle/tools/OsmXmlToRdf.java:539-556 | a relation the builder cannot complete joins the incomplete list; otherwise it is converted when named, stored when referenced, and counted |
| OsmXml.OsmXmlToRdf.EndScan | openstreetmap/src/eu/smartdatalake/athenarc/osmwrangle/tools/OsmXmlToRdf.java:438-538 | `endElement` during a scan converts and counts nothing |
| OsmXml.OsmXmlToRdf.EndParse | openstreetmap/src/eu/smartdatalake/athenarc/osmwrangle/tools/OsmXmlToRdf.java:438-562 | `endElement` in the parse phase adds no index key |
| OsmXml.OsmXmlToRdf.End | openstreetmap/src/eu/smartdatalake/athenarc/osmwrangle/tools/OsmXmlToRdf.java:438-562 | the parse phase never adds an index key, and a scan never converts or counts |
| OsmXml.OsmXmlToRdf.Handle | openstreetmap/src/eu/smartdatalake/athenarc/osmwrangle/tools/OsmXmlToRdf.java:335-562 | one SAX event keeps the same two phase invariants, and a requested rescan is never withdrawn |
| OsmXml.OsmXmlToRdf.Feed | openstreetmap/src/eu/smartdatalake/athenarc/osmwrangle/tools/OsmXmlToRdf.java:232-271 | one read of the file, event by event, records its pass and keeps the phase invariants |
| OsmXml.OsmXmlToRdf.Reexamine | openstreetmap/src/eu/smartdatalake/athenarc/osmwrangle/tools/OsmXmlToRdf.java:291-307 | one incomplete relation is re-examined as its specification says, and the counters grow by what was built and named |
| OsmXml.OsmXmlToRdf.SecondPass | openstreetmap/src/eu/smartdatalake/athenarc/osmwrangle/tools/OsmXmlToRdf.java:289-310 | the incomplete list, the relation index, the outputs and the counters end as the retry specification gives |
| OsmXml.OsmXmlToRdf.Scan | openstreetmap/src/eu/smartdatalake/athenarc/osmwrangle/tools/OsmXmlToRdf.java:232-271 | a preliminary scan of relations or of ways starts from empty temporary indices and records its pass |
| OsmXml.OsmXmlToRdf.ReadFile | openstreetmap/src/eu/smartdatalake/athenarc/osmwrangle/tools/OsmXmlToRdf.java:232-286 | the file is read in the passes of the plan, a second relation scan only when the first asked for one |
| OsmXml.OsmXmlToRdf.ParseDocument | openstreetmap/src/eu/smartdatalake/athenarc/osmwrangle/tools/OsmXmlToRdf.java:207-325 | the reads follow the plan, and after a successful second pass the three indices are cleared |
| Text.JoinSplit | wikidata/wikidata_networkx.py:144 | joining the pieces of `s.split(sep)` with the separator gives back `s` |
| Text.SplitJoin | corpwatch/cw_import.py:137-141 | splitting a join of separator-free pieces gives back the pieces |
| Text.UnescapeEscapeChar | corpwatch/cw_import.py:83 | an escaped string unescapes to the original |
| Text.Trim | openstreetmap/src/eu/smartdatalake/athenarc/osmwrangle/utils/OsmCsvConverter.java:123 | `trim()` gives a slice of the text that neither starts nor ends with whitespace, and is empty exactly when the text is all whitespace |
| Text.TrimWithout | openstreetmap/src/eu/smartdatalake/athenarc/osmwrangle/utils/OsmCsvConverter.java:123 | trimming introduces no character |
| Text.NatToStringInjective | corpwatch/corpwatch_networkx.py:75 | distinct numbers print differently, so numeric node keys do not collide |
| Values.Cell | corpwatch/corpwatch_networkx.py:75 | `row[c]` succeeds exactly when the frame has the column, with its value |
| Values.ToInt | corpwatch/corpwatch_networkx.py:75 | `int(v)` keeps an integer and raises on NaN |
| Values.DecimalValueOfNatToString | corpwatch/corpwatch_networkx.py:211 | reading back the decimal notation of a number gives the number |
| OrderedDicts.Counter | wikidata/wikidata_networkx.py:77-79 | `Counter(xs)` has exactly the values of `xs` as keys |
| OrderedDicts.CounterCounts | wikidata/wikidata_networkx.py:77-79 | each count is the number of occurrences of its value |
| OrderedDicts.CounterTotal | wikidata/wikidata_networkx.py:77-79 | the counts add up to the number of counted values |
| RowCalls.NodeCall | gdelt/gdelt_networkx.py:70-85 | one `add_node` call of a row: it can be made exactly when its key and every keyword argument can be read, and then it adds the key with the keyword arguments read |
| RowCalls.EdgeCall | gdelt/gdelt_networkx.py:102-107 | one `add_edge` call of a row: it can be made exactly when both keys and every keyword argument can be read, and then it links the two keys with those arguments |
| RowCalls.Call | gdelt/gdelt_networkx.py:62-139 | a call that raises ends the row with its error; one that succeeds comes before the row's later calls |
| RowCalls.UnlessMissing | corpwatch/corpwatch_networkx.py:178-193 | a guarded block raises KeyError for a missing column, does nothing for a NaN cell and runs otherwise |
| RowCalls.EachRow | gdelt/gdelt_networkx.py:62 | `iterrows`: one step per row, in frame order, each the row's own step |
| RowCalls.NodeCallWritesAll | corpwatch/corpwatch_networkx.py:169-177 | after a node call whose keyword names differ, followed by calls that leave that node alone, every keyword argument is the node's attribute |
| Graphs.Then | gdelt/gdelt_networkx.py:62-139 | statements of a row in sequence: a raise in the first ends the row; otherwise the calls of both run in order and the second's outcome is the row's |
| Graphs.EdgeOrder | util/gpickle_to_graphml.py:72 | `edges.data()` yields exactly the edges of the graph |
| Graphs.Distinct | gdelt_v2/gdelt_networkx.py:93-100 | the distinct members of a list, each once, and no others |
| Neo4jImport.EdgeStatements | util/gpickle_to_neo4j.py:73-91 | one edge statement per edge, in the order given |
| Neo4jImport.RunStop | util/gpickle_to_neo4j.py:73-92 | once the edge loop has stopped at an error, the statements after it change nothing |
| Grouping.ValuesOf | corpwatch/corpwatch_networkx.py:136 | the values collected for a key are exactly the values paired with it |
| Grouping.GroupedRows | corpwatch/corpwatch_networkx.py:136-137 | `reset_index()`: one row per group, in group order, holding the key and its values |
| GdeltV2Export.SourceKeys | gdelt_v2/utils.py:13-14 | the neighbours skipped as sources are exactly those whose key starts with `S_` |
| GdeltV2Export.CommasRemoved | gdelt_v2/utils.py:19 | `.replace(',','')` leaves no comma and keeps a lower-case text lower-case |
| GdeltV2Export.AllRowsFailOnKey | gdelt_v2/utils.py:16 | with no node holding the attribute, a failing export fails with `KeyError` of that attribute |
| GdeltV2Export.Labels | gdelt_v2/utils.py:35-36 | the `Edge` column: the label of each edge, in edge order |
| GdeltV2Export.TableFilesComplete | gdelt_v2/utils.py:34-41 | over the unique labels of the edge table, the loop finishes exactly when every label is a string, and then each edge's (source, target) pair is in the file named by its lower-cased label |
| GdeltV2Export.TableFilesSound | gdelt_v2/utils.py:34-41 | every pair written to a file is the (source, target) of an edge whose lower-cased label names that file |
| WikidataInvariant.MultiUpsertConsistent | wikidata/wikidata_networkx.py:143-151 | an upsert that writes only multi-valued columns, none named `id`, `nlabel` or `source`, keeps the key invariant |
| WikidataInvariant.EntityRowsConsistent | wikidata/wikidata_networkx.py:125-151 | every call that `create_entities` makes over a frame keeps the key invariant, whenever the scalar and multi-valued column names are apart |
| WikidataInvariant.LinkLabelsConsistent | wikidata/wikidata_networkx.py:169-178 | the calls made for the labels of one link row keep the key invariant |
| WikidataInvariant.LinkRowsConsistent | wikidata/wikidata_networkx.py:153-178 | every call that the link steps make over a frame keeps the key invariant |
| WikidataFacts.OnlyAt | wikidata/wikidata_networkx.py:126-137 | the `id`, `nlabel` and `source` keyword arguments of an entity node reach its attribute dictionary unchanged |
| WikidataFindings.TwinnedIds | wikidata/wikidata_networkx.py:183-190 | the sample graph has id "Q5" as an Organization and as a Person, labelled only on the Person side |
| WikidataFindings.TruncatedOne | wikidata/wikidata_networkx.py:183-185 | as written, `x[7:]` maps an id to the id without its first seven characters |
| WikidataFindings.TruncatedNone | wikidata/wikidata_networkx.py:183-185 | as written, no ids give no truncated ids |
| WikidataFindings.NoBareOrgNode | wikidata/wikidata_networkx.py:198-201 | the sample graph has no node `WD_Org_`, so removing it raises NetworkXError |
| WikidataFindings.CorrectedPlan | wikidata/wikidata_networkx.py:183-192 | with ids kept whole, the sample graph's plan keeps "Q5" as common, removes its Organization node and no Person node |
| CorpwatchFacts.PartOfIndustry | corpwatch/corpwatch_networkx.py:75-79 | an industry node then a PART_OF edge: one edge from the company to the industry appended, the industry labelled `Industry`, the company's attributes unchanged |
| CorpwatchFacts.SubdivisionLinkFails | corpwatch/corpwatch_networkx.py:160-163 | a location row with a country code and no `subdiv_code` column raises |
| CorpwatchFacts.SubdivisionLinkEffect | corpwatch/corpwatch_networkx.py:161-167 | a subdivision node then an IS_IN edge: one edge from the location appended, the subdivision labelled, every other node's attributes unchanged |
| CorpwatchFacts.RelationshipEffect | corpwatch/corpwatch_networkx.py:209-227 | a relationship row appends its FILED edge and, when it has a parent, its PARENT edge after it; filer and company carry their labels |
| CorpwatchFacts.FiledAlone | corpwatch/corpwatch_networkx.py:211-218 | a relationship row without a parent appends only the FILED edge |
| CorpwatchFacts.FiledWithParent | corpwatch/corpwatch_networkx.py:211-227 | a relationship row with a parent appends the FILED edge then the PARENT edge |
| GraphmlWriter.EdgesWithIds | util/gpickle_to_graphml.py:72-84 | when every edge end has a new id, the edge loop finishes exactly when every edge has the label attribute |
| GraphmlWriter.WritableKeysSplit | util/gpickle_to_graphml.py:55-56 | every node that the loop writes has a key that splits into at least two parts at `_` |

## Left out

- I/O is not modelled: files, gzip, CSV and JSON parsing, pickle, printing, timing and progress messages. A file that is read becomes a parameter (its lines, rows or parsed records). A file that is written becomes the sequence of lines produced.
- pandas and networkx internals are not modelled (`read_csv`, `iterrows`, `fillna`, `DataFrame` construction, `nx.write_graphml`, `nx.write_gpickle`). A row is a map from column to value. A frame is a sequence of (index, row) pairs. The graph is the `Graphs.PropertyGraph` class.
- Floating-point numbers are opaque. A float is kept as its printed form and its `int()` truncation. Tone, latitude and longitude arithmetic are not modelled.
- CorpwatchGraph.Importer.Export: the `nx.write_graphml`/`write_gpickle` call at the end is not modelled. Only the cleaning before it is.
- WikidataGraph.Importer.Export: the same. Only the cleaning before the write is modelled.
- The Neo4j driver, sessions and Cypher semantics are not modelled. `Neo4jImport.Session` records the statements sent. Whether the database rejects a statement is a parameter (a predicate on the statement text). `util/graphml_to_neo4j.py` is not part of this model.
- OsmConfiguration.ParseInt accepts ASCII digits `0`-`9` only. Java's `Integer.parseInt` (openstreetmap/src/eu/smartdatalake/athenarc/osmwrangle/utils/Configuration.java:148) reads digits through `Character.digit`, which also accepts the other Unicode decimal digits. A batch size written "١٠" is 10 in Java, while the model rejects it and the configuration fails to load.
- WordCleaning.IsWordChar is ASCII-only: letters, digits and `_`. Python's `\w` on a `str` also accepts non-ASCII letters. For "Société" the source keeps the string, while the model gives "Soci_t_".
- Text.Lower (used for `.lower()` in gdelt_v2/utils.py:16-18 and elsewhere) lower-cases ASCII letters only. Python also lower-cases non-ASCII capitals such as "É".
- Text.Upper is ASCII-only in the same way.
- Grouping.GroupBy lists groups in first-appearance order. pandas `groupby` sorts the keys by default (corpwatch/corpwatch_networkx.py:136, corpwatch/cw_import.py:136). The order of the alias nodes and of their GraphML ids can therefore differ.
- WikidataGraph.RowsWithIds takes the selected rows of `df.loc[ids & set(df.index)]` in frame order. Python iterates the set in hash order.
- WdImport.Selected uses frame order in the same way.
- `Set` values of module `Values` keep one fixed iteration order, the order their items were first met. Python's set order depends on hashing.
- GraphmlWriter.KeyUnion lists the union of the attribute names in first-appearance order. Python's `set.union` order depends on hashing.
- Java `HashMap` and `Properties` iteration order is modelled as insertion order or as an explicit `order` parameter. This applies to the converter's mapping, the classification maps and the configuration.
- CorpwatchGraph.AliasSet converts each name to its printed form before removing duplicates. A NaN name therefore becomes "nan" and the later `'<<;>>'.join` succeeds, where Python keeps the float NaN in the set and raises `TypeError`. Two different names that print alike also merge into one.
- Values.ToInt accepts only unsigned decimal strings. Python's `int()` also accepts a sign and surrounding whitespace ("-5", "+3", " 12").
- wikidata/wd_import.py: `_constraint_graph` (91-101) and `_print_statistics` (224-287) are not modelled. Nor is the driver code at the bottom of the file.
- wikidata/wd_import.py: `_find_ids` (179-183) is not modelled as a member. The ids it finds are a parameter of `WdImport.ExpandNode` and `WdImport.CreateProduct`.
- corpwatch/cw_import.py: `_print_statistics` and the driver code at the bottom of the file (the `fillna` choices and the call order) are not modelled.
- wikidata/wikidata_filter.py: reading the gzip dump in chunks is not modelled. The JSON parse of a line is a parameter. The model processes one chunk, as the source's unconditional `break` does.
- wikidata/wikidata_cleaner.py: file reading and writing and the JSON parse of a line are not modelled. They are parameters.
- Classification.java: the CSV decoding done by the CSV library is not modelled. Records come in already split into fields.
- Classification.java: `findDescendants` and `printHierarchyYML` only print, and are not modelled.
- UUIDs are not modelled as MD5 or random values. Name-based UUIDs (`UUID.nameUUIDFromBytes`) are an unconstrained function parameter applied to the name (`hash` in `OsmAssistant.Assistant.GetUUID`, `uuidOf` in `OsmClassification.YmlApply`); nothing is assumed about it, not even injectivity. A random UUID is a parameter.
- Assistant.java: only the helpers that the modelled classes call are modelled. Geometry construction, CRS transformation, area and length, MBR updates, `mergeFiles`, metadata writing and directory deletion are not. `concatenate(String[])` is not modelled, because its accumulator starts as null.
- OsmXmlToRdf.java: driving the SAX parser and choosing the in-memory or disk index by heap size (209-223) are not modelled. The element events come in as a sequence, and the in-memory index is used.
- OsmXmlToRdf.java: JTS geometries are not built. A geometry is the value that identifies it, and two geometries are equal as values.
- OsmXmlToRdf.java: `OSMRecordBuilder` (record and geometry construction for nodes, ways and relations) is a parameter. A relation that it cannot build joins the list of incomplete relations.
- OsmXmlToRdf.java: `apply()` (568-589) hands records to the converter, and is not part of this model.
- OsmXml.OsmXmlToRdf.ParseDocument: the second pass looks relations up by the id without its first and last characters (302-303), as written. An id shorter than two characters, where `substring` throws, is modelled as a failed pass.
- OsmXmlToRdf.java: Java `long` counters are unbounded integers in the model.
- OsmCsvConverter.java: the `==`/`!=` comparisons of strings at 183 and 187 compare identity in Java. The model compares values.
- OsmCsvConverter.java: the JSON serialisation of the remaining tags is a parameter. `Double.toString` of coordinates is opaque.
- OsmCsvConverter.java: `notifyProgress`, the batch writer and `store()` (223-238) are not modelled. Nor is `int` overflow of the counters.
- String comparisons that ignore case (`equalsIgnoreCase`) are ASCII-only.
- `System.exit` through `ExceptionHandler.abort` is modelled as a `Fatal` failure result.
- Drivers and command-line scripts (the `import_data.py`, `collect_data.py`, `filter_data.py` and `clean_data.py` scripts, `Extractor.java`) are not part of this model.

## Findings

| source | as written | input that shows it | evidently intended | confidence | as-written member | corrected member |
|---|---|---|---|---|---|---|
| wikidata/wikidata_networkx.py:183-201 | the cleanup drops seven characters from each `id` attribute (`x[7:]`). The attribute holds the bare id, not the key "WD_Org_Q5". An id of at most seven characters, such as "Q5", becomes "", and then `remove_node("WD_Org_")` raises NetworkXError. A longer id keeps only its tail ("Q12345678" becomes "78"), and then `remove_node("WD_Org_78")` raises or removes an unrelated node that has that key | a graph with an unlabelled Organization node and a labelled Person node, both with the short id "Q5" | compare the ids whole, so the Organization twin `WD_Org_Q5` is removed | not executed | WikidataFindings.TruncatedTwinsRemoveMissingNode | WikidataFindings.CorrectedTwinsRemoveOrganization |
| util/networkx_importer.py:95 | `re.sub(r'[^w]', '_', v)` replaces every character except the letter `w` | the value "Athens" becomes "______" | `[^\w]`, as util/gpickle_to_graphml.py:22 writes it, which keeps word characters | not executed | WordCleaning.LetterWErasesNames | WordCleaning.WordCharsKeepWords |
| gdelt_v2/utils.py:16 | `export_all_csv` reads `full_name` from location neighbours. The v2 builder stores the location's text under `name` (gdelt_v2/gdelt_networkx.py:62) | any built graph with an article linked to a location: the export raises KeyError('full_name') | read `name` | not executed | GdeltV2Export.AsWrittenExportFails | GdeltV2Export.CorrectedExportSucceeds |
| wikidata/wikidata_cleaner.py:149-160 | a P625 claim without a `datavalue` leaves `output` unchanged, so the previous claim's text is written again. When no claim came before, it raises NameError | claims P968 = "x@y" then P625 with no value: the row ends `, "x@y", "x@y"` | write two empty coordinate columns | not executed | WikidataCleaner.StaleCoordinatesAsWritten | WikidataCleaner.StaleCoordinatesCorrected |
| openstreetmap/src/eu/smartdatalake/athenarc/osmwrangle/utils/OsmCsvConverter.java:110 | the header is the base header, the columns joined by the delimiter bar, then OTHER_TAGS. With no columns (an unreadable mapping file, lines 83-85) it has an empty field: 10 header fields against 9 fields per row | a mapping file that cannot be loaded | one header field per column, and none when there are no columns | not executed | OsmCsvConverter.HeaderWithoutColumns | OsmCsvConverter.CorrectedHeaderFields |
