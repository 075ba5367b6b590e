/** What a component asks of the browser's media and fullscreen APIs. The browser
  * answers later through events (`play`, `pause`, `fullscreenchange`), which the
  * components handle separately; a request is never taken as its own outcome. */
module Media {

  /** A call on an HTMLVideoElement: `play()`, `pause()`, or none at all. */
  datatype MediaRequest = NoMediaRequest | PlayMedia | PauseMedia

  /** `container.requestFullscreen()`, `document.exitFullscreen()`, or none. */
  datatype FullscreenRequest = NoFullscreenRequest | EnterFullscreen | ExitFullscreen
}
