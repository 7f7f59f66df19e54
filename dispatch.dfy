/**
 * `send_message`: resolve the target, synthesize speech, store the audio,
 * presign a link to it, publish the notification to the broadcast topic and
 * to every resolved device, and return the payload extended with the devices.
 *
 * The speech engine, the link signer and the UUID generator are parameters.
 * The object-store write and the publish calls are the side effects; both are
 * appended, in the order they happen, to the dispatcher's `trace`.
 */
module Dispatch {
  import opened Wrappers
  import opened Endpoints

  type Bytes = seq<bv8>

  /** Topic every message is published to before the per-device topics. */
  const Broadcast: string := "noticast-messages"
  /** The MQTT quality-of-service level of every publish. */
  const Qos: int := 1
  const OutputFormat: string := "mp3"
  const TextType: string := "text"
  const AudioSuffix: string := ".mp3"
  const PresignOperation: string := "get_object"

  /** The arguments of `polly.synthesize_speech`. */
  datatype SpeechRequest = SpeechRequest(outputFormat: string, text: string, textType: string, voiceId: string)

  /** The arguments of `s3.generate_presigned_url`. */
  datatype PresignRequest = PresignRequest(operation: string, bucket: string, key: string)

  /** The notification body `{message, uri}`; it stands for its JSON encoding. */
  datatype Payload = Payload(message: string, uri: string)

  /** The keyword arguments of `iot.publish`. */
  datatype PublishArgs = PublishArgs(topic: string, payload: Payload, qos: int)

  /** An observable side effect: an object written to the bucket, or one publish call. */
  datatype Effect =
    | Put(bucket: string, key: string, body: Bytes)
    | Publish(args: PublishArgs)

  /** The value `send_message` returns: the payload extended with `devices` and `is_group`. */
  datatype Response = Response(message: string, uri: string, devices: seq<string>, isGroup: bool)

  /** `[d.arn for d in devices]`. */
  function Arns(devices: seq<Device>): (r: seq<string>)
    ensures |r| == |devices|
    ensures forall i :: 0 <= i < |devices| ==> r[i] == devices[i].arn
  {
    if devices == [] then [] else [devices[0].arn] + Arns(devices[1..])
  }

  /** The object key `<uuid>.mp3`. */
  function ObjectKey(uuid: string): (key: string)
    ensures |key| == |uuid| + 4 && key[..|uuid|] == uuid && key[|uuid|..] == ".mp3"
  {
    uuid + AudioSuffix
  }

  /** Distinct UUIDs name distinct objects, so a fresh UUID never overwrites an earlier message's audio. */
  lemma ObjectKeyInjective(u1: string, u2: string)
    requires ObjectKey(u1) == ObjectKey(u2)
    ensures u1 == u2
  {
    var k := ObjectKey(u1);
    assert u1 == k[..|k| - 4];
    assert u2 == k[..|k| - 4];
  }

  /** The publishes of the loop over the resolved devices: one per device, topic = device arn. */
  function DevicePublishes(payload: Payload, devices: seq<Device>): (r: seq<Effect>)
    ensures |r| == |devices|
    ensures forall i :: 0 <= i < |devices| ==> r[i] == Publish(PublishArgs(devices[i].arn, payload, Qos))
  {
    if devices == [] then []
    else [Publish(PublishArgs(devices[0].arn, payload, Qos))] + DevicePublishes(payload, devices[1..])
  }

  lemma DevicePublishesSnoc(payload: Payload, devices: seq<Device>, i: int)
    requires 0 <= i < |devices|
    ensures DevicePublishes(payload, devices[..i + 1])
              == DevicePublishes(payload, devices[..i]) + [Publish(PublishArgs(devices[i].arn, payload, Qos))]
  {
  }

  /** The whole fan-out: the broadcast topic first, then every device in resolution order. */
  function FanOut(payload: Payload, devices: seq<Device>): seq<Effect>
  {
    [Publish(PublishArgs(Broadcast, payload, Qos))] + DevicePublishes(payload, devices)
  }

  /** The store write: present exactly when synthesis returned an audio stream. */
  function StoreEffects(bucket: string, key: string, audio: Option<Bytes>): seq<Effect>
  {
    match audio
    case Some(body) => [Put(bucket, key, body)]
    case None => []
  }

  function Speech(text: string, voiceId: string): SpeechRequest
  {
    SpeechRequest(OutputFormat, text, TextType, voiceId)
  }

  function Link(bucket: string, uuid: string, presign: PresignRequest -> string): string
  {
    presign(PresignRequest(PresignOperation, bucket, ObjectKey(uuid)))
  }

  /** Every side effect of one `send_message` call, in order. */
  function SendEffects(dir: Directory, bucket: string, arn: string, text: string, voiceId: string,
                       synthesize: SpeechRequest -> Option<Bytes>, uuid: string,
                       presign: PresignRequest -> string): seq<Effect>
  {
    StoreEffects(bucket, ObjectKey(uuid), synthesize(Speech(text, voiceId)))
      + FanOut(Payload(text, Link(bucket, uuid, presign)), Resolve(dir, arn).devices)
  }

  /** The value one `send_message` call returns. */
  function SendResponse(dir: Directory, bucket: string, arn: string, text: string, uuid: string,
                        presign: PresignRequest -> string): Response
  {
    var resolved := Resolve(dir, arn);
    Response(text, Link(bucket, uuid, presign), Arns(resolved.devices), resolved.isGroup)
  }

  /** The topics of the publishes in a trace, in order. */
  function Topics(trace: seq<Effect>): seq<string>
  {
    if trace == [] then []
    else (if trace[0].Publish? then [trace[0].args.topic] else []) + Topics(trace[1..])
  }

  /** The keys of the objects written in a trace, in order. */
  function PutKeys(trace: seq<Effect>): seq<string>
  {
    if trace == [] then []
    else (if trace[0].Put? then [trace[0].key] else []) + PutKeys(trace[1..])
  }

  lemma {:induction false} TopicsAppend(a: seq<Effect>, b: seq<Effect>)
    ensures Topics(a + b) == Topics(a) + Topics(b)
  {
    if a == [] {
      assert a + b == b;
    } else {
      assert (a + b)[1..] == a[1..] + b;
      TopicsAppend(a[1..], b);
    }
  }

  lemma {:induction false} PutKeysAppend(a: seq<Effect>, b: seq<Effect>)
    ensures PutKeys(a + b) == PutKeys(a) + PutKeys(b)
  {
    if a == [] {
      assert a + b == b;
    } else {
      assert (a + b)[1..] == a[1..] + b;
      PutKeysAppend(a[1..], b);
    }
  }

  /** The per-device publishes go to the device arns, in order, and write nothing. */
  lemma {:induction false} DevicePublishesTopics(payload: Payload, devices: seq<Device>)
    ensures Topics(DevicePublishes(payload, devices)) == Arns(devices)
    ensures PutKeys(DevicePublishes(payload, devices)) == []
  {
    if devices != [] {
      var rest := DevicePublishes(payload, devices[1..]);
      assert DevicePublishes(payload, devices)[1..] == rest;
      DevicePublishesTopics(payload, devices[1..]);
    }
  }

  /**
   * lambda_function.py lines 107-116: exactly `1 + |devices|` publishes; the first to the
   * broadcast topic, then one per resolved device to that device's arn, in
   * resolution order; all with the same payload and qos 1.
   */
  lemma FanOutShape(payload: Payload, devices: seq<Device>)
    ensures |FanOut(payload, devices)| == 1 + |devices|
    ensures Topics(FanOut(payload, devices)) == [Broadcast] + Arns(devices)
    ensures forall e :: e in FanOut(payload, devices) ==>
              e.Publish? && e.args.payload == payload && e.args.qos == Qos
    ensures PutKeys(FanOut(payload, devices)) == []
  {
    var head := [Publish(PublishArgs(Broadcast, payload, Qos))];
    TopicsAppend(head, DevicePublishes(payload, devices));
    PutKeysAppend(head, DevicePublishes(payload, devices));
    DevicePublishesTopics(payload, devices);
  }

  /**
   * lambda_function.py lines 90-106: an object is written, under `<uuid>.mp3`, only when speech
   * synthesis returned audio, and it is written before any publish; the link
   * in every published payload is the presigned link for that key whether or
   * not anything was written.
   */
  lemma SendEffectsStore(dir: Directory, bucket: string, arn: string, text: string, voiceId: string,
                         synthesize: SpeechRequest -> Option<Bytes>, uuid: string,
                         presign: PresignRequest -> string)
    ensures var audio := synthesize(SpeechRequest("mp3", text, "text", voiceId));
            var effects := SendEffects(dir, bucket, arn, text, voiceId, synthesize, uuid, presign);
            && PutKeys(effects) == (if audio.Some? then [uuid + ".mp3"] else [])
            && (audio.Some? ==> effects[0] == Put(bucket, uuid + ".mp3", audio.value))
            && forall e :: e in effects && e.Publish? ==>
                 e.args.payload.uri == presign(PresignRequest("get_object", bucket, uuid + ".mp3"))
  {
    var audio := synthesize(Speech(text, voiceId));
    var store := StoreEffects(bucket, ObjectKey(uuid), audio);
    var fan := FanOut(Payload(text, Link(bucket, uuid, presign)), Resolve(dir, arn).devices);
    PutKeysAppend(store, fan);
    FanOutShape(Payload(text, Link(bucket, uuid, presign)), Resolve(dir, arn).devices);
    if audio.Some? {
      assert PutKeys(store) == [ObjectKey(uuid)] + PutKeys([]);
    }
  }

  /**
   * lambda_function.py lines 100-116: every publish of one call carries the
   * same payload, the text with the presigned link for `<uuid>.mp3`, at qos 1.
   */
  lemma SendEffectsPayload(dir: Directory, bucket: string, arn: string, text: string, voiceId: string,
                           synthesize: SpeechRequest -> Option<Bytes>, uuid: string,
                           presign: PresignRequest -> string)
    ensures forall e :: e in SendEffects(dir, bucket, arn, text, voiceId, synthesize, uuid, presign) && e.Publish? ==>
              && e.args.payload == Payload(text, presign(PresignRequest("get_object", bucket, uuid + ".mp3")))
              && e.args.qos == 1
  {
    FanOutShape(Payload(text, Link(bucket, uuid, presign)), Resolve(dir, arn).devices);
  }

  /**
   * lambda_function.py lines 68-81 with 113-116: the publishes of one call go to the broadcast
   * topic and then to the resolved devices, whatever the target resolved to.
   */
  lemma SendEffectsTopics(dir: Directory, bucket: string, arn: string, text: string, voiceId: string,
                          synthesize: SpeechRequest -> Option<Bytes>, uuid: string,
                          presign: PresignRequest -> string)
    ensures Topics(SendEffects(dir, bucket, arn, text, voiceId, synthesize, uuid, presign))
              == [Broadcast] + Arns(Resolve(dir, arn).devices)
  {
    var audio := synthesize(Speech(text, voiceId));
    var store := StoreEffects(bucket, ObjectKey(uuid), audio);
    var payload := Payload(text, Link(bucket, uuid, presign));
    TopicsAppend(store, FanOut(payload, Resolve(dir, arn).devices));
    FanOutShape(payload, Resolve(dir, arn).devices);
    if audio.Some? {
      assert Topics(store) == [] + Topics([]);
    }
  }

  /** An unknown target is not an error: the one publish goes to the broadcast topic. */
  lemma UnknownTargetBroadcastOnly(dir: Directory, bucket: string, arn: string, text: string, voiceId: string,
                                   synthesize: SpeechRequest -> Option<Bytes>, uuid: string,
                                   presign: PresignRequest -> string)
    requires !HasMatch(dir.devices, DeviceArn, arn)
    requires !HasMatch(dir.groups, GroupArn, arn)
    ensures Topics(SendEffects(dir, bucket, arn, text, voiceId, synthesize, uuid, presign)) == ["noticast-messages"]
    ensures SendResponse(dir, bucket, arn, text, uuid, presign).devices == []
    ensures !SendResponse(dir, bucket, arn, text, uuid, presign).isGroup
  {
    SendEffectsTopics(dir, bucket, arn, text, voiceId, synthesize, uuid, presign);
  }

  /** A device target: two publishes, broadcast then the device; the response names that one device. */
  lemma DeviceTargetPublishes(dir: Directory, bucket: string, arn: string, text: string, voiceId: string,
                              synthesize: SpeechRequest -> Option<Bytes>, uuid: string,
                              presign: PresignRequest -> string, i: int)
    requires IsFirstMatch(dir.devices, DeviceArn, arn, i)
    ensures Topics(SendEffects(dir, bucket, arn, text, voiceId, synthesize, uuid, presign)) == ["noticast-messages", arn]
    ensures SendResponse(dir, bucket, arn, text, uuid, presign).devices == [arn]
    ensures !SendResponse(dir, bucket, arn, text, uuid, presign).isGroup
  {
    ResolveDevice(dir, arn, i);
    SendEffectsTopics(dir, bucket, arn, text, voiceId, synthesize, uuid, presign);
  }

  /** A group target: the broadcast, then every member's topic in the group's order; `is_group` is set. */
  lemma GroupTargetPublishes(dir: Directory, bucket: string, arn: string, text: string, voiceId: string,
                             synthesize: SpeechRequest -> Option<Bytes>, uuid: string,
                             presign: PresignRequest -> string, k: int)
    requires !HasMatch(dir.devices, DeviceArn, arn)
    requires IsFirstMatch(dir.groups, GroupArn, arn, k)
    ensures |Topics(SendEffects(dir, bucket, arn, text, voiceId, synthesize, uuid, presign))| == 1 + |dir.groups[k].members|
    ensures Topics(SendEffects(dir, bucket, arn, text, voiceId, synthesize, uuid, presign))
              == ["noticast-messages"] + Arns(dir.groups[k].members)
    ensures SendResponse(dir, bucket, arn, text, uuid, presign).devices == Arns(dir.groups[k].members)
    ensures SendResponse(dir, bucket, arn, text, uuid, presign).isGroup
  {
    ResolveGroup(dir, arn, k);
    SendEffectsTopics(dir, bucket, arn, text, voiceId, synthesize, uuid, presign);
  }

  /**
   * lambda_function.py lines 100-101, 119-121: the response repeats the
   * text and the link; unless the target named a group, it lists the target
   * itself when a device carries that identifier and nothing otherwise.
   */
  lemma SendResponseTarget(dir: Directory, bucket: string, arn: string, text: string, uuid: string,
                           presign: PresignRequest -> string)
    ensures var r := SendResponse(dir, bucket, arn, text, uuid, presign);
            && r.message == text
            && r.uri == presign(PresignRequest("get_object", bucket, uuid + ".mp3"))
            && (!r.isGroup ==> r.devices == (if HasMatch(dir.devices, DeviceArn, arn) then [arn] else []))
  {
    var resolved := Resolve(dir, arn);
    if !resolved.isGroup {
      ResolveNotGroup(dir, arn);
      if HasMatch(dir.devices, DeviceArn, arn) {
        assert resolved.devices[0] in resolved.devices;
      }
    }
  }

  /** The state `send_message` acts on: the directory it reads and the trace of what it did. */
  class Dispatcher {
    const directory: Directory
    const bucketName: string
    var trace: seq<Effect>

    constructor (directory: Directory, bucketName: string)
      ensures this.directory == directory && this.bucketName == bucketName
      ensures trace == []
    {
      this.directory := directory;
      this.bucketName := bucketName;
      trace := [];
    }

    /** lambda_function.py lines 70-82: look the target up among the devices, then among the groups. */
    method ResolveTarget(arn: string) returns (devices: seq<Device>, isGroup: bool)
      ensures Resolved(devices, isGroup) == Resolve(directory, arn)
    {
      devices := [];
      isGroup := false;
      var item := FirstMatch(directory.devices, DeviceArn, arn);
      if item.Some? {
        devices := devices + [directory.devices[item.value]];
      } else {
        var group := FirstMatch(directory.groups, GroupArn, arn);
        if group.Some? {
          isGroup := true;
          devices := devices + directory.groups[group.value].members;
        }
      }
    }

    /** lambda_function.py lines 107-116: publish once to the broadcast topic, then once per device, changing only the topic. */
    method PublishNotification(payload: Payload, devices: seq<Device>)
      modifies this
      ensures trace == old(trace) + FanOut(payload, devices)
    {
      var args := PublishArgs(Broadcast, payload, Qos);
      trace := trace + [Publish(args)];
      for i := 0 to |devices|
        invariant args.payload == payload && args.qos == Qos
        invariant trace == old(trace) + [Publish(PublishArgs(Broadcast, payload, Qos))]
                                      + DevicePublishes(payload, devices[..i])
      {
        args := args.(topic := devices[i].arn);
        trace := trace + [Publish(args)];
        DevicePublishesSnoc(payload, devices, i);
      }
      assert devices[..|devices|] == devices;
    }

    /** lambda_function.py lines 67-121. */
    method SendMessage(arn: string, text: string, voiceId: string,
                       synthesize: SpeechRequest -> Option<Bytes>, uuid: string,
                       presign: PresignRequest -> string)
      returns (response: Response)
      modifies this
      ensures trace == old(trace) + SendEffects(directory, bucketName, arn, text, voiceId, synthesize, uuid, presign)
      ensures response == SendResponse(directory, bucketName, arn, text, uuid, presign)
    {
      var devices, isGroup := ResolveTarget(arn);

      // The key exists before it is known whether synthesis produced audio.
      var audio := synthesize(Speech(text, voiceId));
      var output := ObjectKey(uuid);
      if audio.Some? {
        trace := trace + [Put(bucketName, output, audio.value)];
      }

      // The link is presigned whether or not anything was written.
      var payload := Payload(text, presign(PresignRequest(PresignOperation, bucketName, output)));
      PublishNotification(payload, devices);

      response := Response(payload.message, payload.uri, Arns(devices), isGroup);
    }
  }
}
