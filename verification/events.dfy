/**
 * The scene kinds and event payloads that the services exchange over the bus
 * (src/automixer/core/events.py). Events are immutable values.
 */
module Events {
  import opened Wrappers

  /** Classification of a program scene of the mixing console. */
  datatype SceneType = Slide | Camera | Other

  /** One 8-bit channel value of a camera frame. */
  type Pixel = x: int | 0 <= x < 256

  /**
   * A camera frame, flattened: every channel value of the image in a fixed
   * order. Two frames have the same shape exactly when they have the same length.
   */
  type Frame = seq<Pixel>

  /** One OCR detection: bounding region, recognised text, confidence. */
  datatype OcrItem = OcrItem(region: seq<int>, text: string, confidence: real)

  /** The events of the bus; one variant per event class. */
  datatype Event =
    | CameraFrame(frame: Option<Frame>)
    | SlideChange(slide: Frame, previousSlide: Frame)
    | SlideOcr(slide: Frame, ocrResult: seq<OcrItem>)
    | AudioSegment(segment: seq<int>, samplerate: int)
    | Transcription(text: string)
    | MixingResult(sceneType: SceneType)
    | ProgramChange(sceneType: SceneType, sceneName: string)

  /**
   * What a handler is registered under: an explicit event type, or, when
   * none is configured, the single remaining parameter of the handler.
   */
  datatype HandlerKey = ByEventType(eventType: string) | ByParameter(parameter: string)

  /** A handler registration: the key and the name of the handler method. */
  datatype Handler = Handler(key: HandlerKey, handlerName: string)

  /**
   * The event bus (src/automixer/core/bus.py), reduced to what the services
   * can observe: the events dispatched on it, in order, and the handlers
   * registered on it, in order. Delivery to the handlers is not modelled.
   */
  class Bus {
    var dispatched: seq<Event>
    var handlers: seq<Handler>

    constructor()
      ensures dispatched == [] && handlers == []
    {
      dispatched := [];
      handlers := [];
    }

    /** Appends `e` to the dispatched events. */
    method Dispatch(e: Event)
      modifies this
      ensures dispatched == old(dispatched) + [e]
      ensures handlers == old(handlers)
    {
      dispatched := dispatched + [e];
    }

    /** Registers `handler` (the `on` call of the bus). */
    method On(handler: Handler)
      modifies this
      ensures handlers == old(handlers) + [handler]
      ensures dispatched == old(dispatched)
    {
      handlers := handlers + [handler];
    }
  }
}

/**
 * The events of the earlier service generation under services/
 * (core/events.py) and the publish/subscribe bus they travel on.
 */
module LegacyEvents {
  /** The events the modelled legacy services publish. */
  datatype LegacyEvent =
    | ChangeDetected(timestamp: real)
    | RougeScore(score: real, rouge1: real, rougel: real, timestamp: real)

  /** The legacy bus, reduced to the sequence of published events. */
  class LegacyBus {
    var published: seq<LegacyEvent>

    constructor()
      ensures published == []
    {
      published := [];
    }

    /** Appends `e` to the published events. */
    method Publish(e: LegacyEvent)
      modifies this
      ensures published == old(published) + [e]
    {
      published := published + [e];
    }
  }
}
