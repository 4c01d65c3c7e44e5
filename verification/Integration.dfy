/** IntegrationService.integrate: replaying worker commits onto the persistent main checkout. */
module Integration {
  import opened Digraph
  import opened IntegrationReport
  import opened PacketOrder
  import opened PacketOutcomes
  import opened Wrappers

  class IntegrationService {
    /** The commits of the persistent main branch, oldest first. */
    var main: seq<string>
    /** Rows this service writes: the latest saved result and the packet's lifecycle status. */
    var savedResults: Results
    var packetStatus: map<PacketId, ResultStatus>

    method Integrate(packets: seq<Packet>, inputResults: seq<PacketResult>, env: Environment, collate: Collation)
      returns (report: Report, ghost order: seq<Packet>)
      requires DistinctIds(packets)
      modifies this
      ensures !DependenciesPresent(packets) || Cyclic(GraphOf(packets)) || !env.mainStatus.Clean? ==>
                report == Report(ReportBlocked, [], ByPacket(inputResults))
                && main == old(main) && savedResults == old(savedResults) && packetStatus == old(packetStatus)
      ensures DependenciesPresent(packets) && !Cyclic(GraphOf(packets)) && env.mainStatus.Clean? ==>
                var input := ByPacket(inputResults);
                && TopologicalOrderOf(packets, order) && LeastFirst(packets, collate, order)
                && report.integratedPacketIds == IntegratedIds(env, input, order, |order|)
                && SettledUpTo(env, input, order, |order|, Books(input, old(savedResults), old(packetStatus)),
                               Books(report.results, savedResults, packetStatus))
                && (forall i | 0 <= i < |order| :: PacketExplained(env, input, order, report.integratedPacketIds, report.results, i))
                && ReportExplained(input, order, report)
                && CommitsAdded(input, order, report.integratedPacketIds, old(main), main)
                && AllRecorded(input, order, report.integratedPacketIds, Books(input, old(savedResults), old(packetStatus)),
                               Books(report.results, savedResults, packetStatus))
      ensures main == old(main) + Commits(ByPacket(inputResults), report.integratedPacketIds)
      ensures report.status.ReportBlocked? ==> main == old(main)
      ensures (forall r | r in inputResults :: SchemaValid(r)) ==>
                forall a, b | 0 <= a < b < |report.integratedPacketIds| ::
                  DisjointPaths(ByPacket(inputResults), report.integratedPacketIds, a, b)
    {
      var input := ByPacket(inputResults);
      var ordered := TopologicalOrder(packets, collate);
      order := [];
      if !ordered.Ordered? {
        report := Report(ReportBlocked, [], input);
        return;
      }
      order := ordered.packets;
      if !env.mainStatus.Clean? {
        report := Report(ReportBlocked, [], input);
        return;
      }
      PermutationMembers(packets, order);
      PermutationDistinct(packets, order);
      if forall r | r in inputResults :: SchemaValid(r) {
        IntegratedIdsDisjoint(env, input, order);
      }
      report := IntegrateInOrder(ordered.packets, input, env);
      Explain(env, input, order, Books(input, old(savedResults), old(packetStatus)), Books(report.results, savedResults, packetStatus),
              report, old(main), main);
    }

    /** The loop over the order and the report it ends in. */
    method IntegrateInOrder(order: seq<Packet>, input: Results, env: Environment) returns (report: Report)
      requires DependenciesFirst(order) && DistinctIds(order)
      requires forall id | id in input :: input[id].packetId == id
      modifies this
      ensures report.integratedPacketIds == IntegratedIds(env, input, order, |order|)
      ensures main == old(main) + Commits(input, report.integratedPacketIds)
      ensures Books(report.results, savedResults, packetStatus)
              == SettleAll(env, input, order, |order|, Books(input, old(savedResults), old(packetStatus)))
      ensures report.status == StatusOf(exists i :: 0 <= i < |order| && Conflicting(OutcomeAt(env, input, order, i)),
                                        |report.integratedPacketIds|, |order|,
                                        exists id :: id in report.results && IsFailure(report.results[id].status))
    {
      hide OutcomeOf, Settle, TakenPaths, CommitOf, Conflicting;
      NothingYet(input);
      var results := input;
      var integratedIds: seq<PacketId> := [];
      var integratedPaths: set<string> := {};
      var conflict := false;
      for n := 0 to |order|
        invariant integratedIds == IntegratedIds(env, input, order, n)
        invariant integratedPaths == TakenPaths(input, integratedIds)
        invariant main == old(main) + Commits(input, integratedIds)
        invariant Books(results, savedResults, packetStatus)
                  == SettleAll(env, input, order, n, Books(input, old(savedResults), old(packetStatus)))
        invariant conflict <==> exists i :: 0 <= i < n && Conflicting(OutcomeAt(env, input, order, i))
      {
        var clash: bool;
        PacketReady(env, input, order, n, Books(input, old(savedResults), old(packetStatus)));
        CommitsGrow(input, integratedIds, order[n].packetId);
        results, integratedIds, integratedPaths, clash := SettlePacket(env, input, order[n], results, integratedIds, integratedPaths);
        assert clash == Conflicting(OutcomeAt(env, input, order, n));
        conflict := conflict || clash;
      }
      var hasFailure := exists id | id in results :: IsFailure(results[id].status);
      report := Report(StatusOf(conflict, |integratedIds|, |order|, hasFailure), integratedIds, results);
    }

    /** The body of the integration loop: decide one packet and carry it out. */
    method SettlePacket(env: Environment, ghost input: Results, p: Packet, given: Results,
                        before: seq<PacketId>, taken: set<string>)
      returns (results: Results, integratedIds: seq<PacketId>, integratedPaths: set<string>, conflict: bool)
      requires forall d | d in p.dependencies :: d in given && given[d].packetId == d
      requires p.packetId in given <==> p.packetId in input
      requires p.packetId in input ==> given[p.packetId] == input[p.packetId]
      requires taken == TakenPaths(input, before)
      modifies this
      ensures var o := OutcomeOf(env, input, p, before);
              && Books(results, savedResults, packetStatus) == Settle(input, p.packetId, o, Books(given, old(savedResults), old(packetStatus)))
              && integratedIds == (if o.Integrated? then before + [p.packetId] else before)
              && conflict == Conflicting(o)
      ensures integratedIds == before + [p.packetId] <==> Lands(env, input, p, set id | id in before)
      ensures integratedPaths == TakenPaths(input, integratedIds)
      ensures main == old(main) + if OutcomeOf(env, input, p, before).Integrated? then [CommitOf(input, p.packetId)] else []
    {
      LandsIff(env, input, p, before);
      hide FirstOverlap, TakenPaths, Lands;
      results, integratedIds, integratedPaths, conflict := given, before, taken, false;
      var dependencyFailed := exists d | d in p.dependencies :: d !in results || !results[d].status.COMPLETED?;
      if p.packetId !in results && (dependencyFailed || |p.dependencies| > 0) {
        results := results[p.packetId := PacketResult(p.packetId, SKIPPED_DEPENDENCY, None, [])];
        Record(p, results[p.packetId], SKIPPED_DEPENDENCY);
      }
      if p.packetId !in results {
        results := results[p.packetId := PacketResult(p.packetId, BLOCKED, None, [])];
        Record(p, results[p.packetId], BLOCKED);
      }
      var result := results[p.packetId];
      if !result.status.COMPLETED? {
        return;
      }
      if exists d | d in p.dependencies :: d in results && results[d].packetId !in integratedIds {
        results := results[p.packetId := result.(status := SKIPPED_DEPENDENCY)];
        Record(p, results[p.packetId], SKIPPED_DEPENDENCY);
      } else if OverlapDetected(result.filesChanged, integratedPaths) {
        results := results[p.packetId := result.(status := INTEGRATION_CONFLICT)];
        Record(p, results[p.packetId], BLOCKED);
        conflict := true;
      } else if !HasProvenance(result) {
        results := results[p.packetId := result.(status := BLOCKED)];
        Record(p, results[p.packetId], BLOCKED);
      } else if WorktreeMatches(env, p, result.worktree.value) && p.packetId in env.gitAccepts {
        TakenGrows(input, integratedIds, p.packetId);
        main := main + [result.worktree.value.commitSha.value];
        integratedIds := integratedIds + [p.packetId];
        packetStatus := packetStatus[p.packetId := COMPLETED];
        integratedPaths := integratedPaths + ChangedPaths(result);
      } else {
        results := results[p.packetId := result.(status := INTEGRATION_CONFLICT)];
        Record(p, results[p.packetId], BLOCKED);
        conflict := true;
      }
    }

    /** saveResult and updateStatus for one packet. */
    method Record(p: Packet, result: PacketResult, status: ResultStatus)
      modifies this`savedResults, this`packetStatus
      ensures savedResults == old(savedResults)[p.packetId := result]
      ensures packetStatus == old(packetStatus)[p.packetId := status]
    {
      savedResults := savedResults[p.packetId := result];
      packetStatus := packetStatus[p.packetId := status];
    }
  }
}
