/**
 * Whole runs of the connection wizard, driven through the handlers of
 * `DashboardPage.Dashboard` exactly as the page's buttons and timers would, and
 * what each run ends with. They rely only on the handlers' contracts.
 */
module DashboardScenarios {
  import opened Wrappers
  import opened DashboardPage

  /** Connect a Fitbit: search, pick the second device, answer the three
      single-select questions, toggle two health conditions, continue, and let
      the connect timer fire. The device is connected, the modal is closed, and
      the answers survive the close for the connected view to read. */
  method ConnectFitbit() returns (d: Dashboard)
    ensures d.isDeviceConnected && d.connectedDevice == Some(FoundDevice("fb2", "Fitbit Sense 2", "fitbit", Medium))
    ensures !d.showDeviceModal && d.modalStep == None && d.foundDevices == [] && d.selectedDevice == None
    ensures d.setupAnswers == SetupAnswers("Mum", "Son/Daughter", "70-79", ["Diabetes", "Memory concerns"])
    ensures d.currentQuestion == LastQuestion
  {
    d := new Dashboard();
    var discovery := d.OpenDeviceModal(Some(Fitbit));
    d.DiscoveryElapsed(discovery.deviceType);
    assert |d.foundDevices| == 3 && d.modalStep == Some(Devices);
    d.HandleDeviceSelect(d.foundDevices[1]);
    assert d.modalStep == Some(Questions) && d.currentQuestion == 0;
    var none := d.HandleAnswerSelect("Mum");
    none := d.HandleAnswerSelect("Son/Daughter");
    none := d.HandleAnswerSelect("70-79");
    assert d.CurrentField() == HealthConditions;
    none := d.HandleAnswerSelect("Diabetes");
    none := d.HandleAnswerSelect("Memory concerns");
    assert d.setupAnswers.healthConditions == ["Diabetes", "Memory concerns"];
    var connect := d.HandleNextQuestion();
    assert d.modalStep == Some(Connecting);
    d.ConnectElapsed(connect.value.device);
  }

  /** Cancel an Apple Watch search before discovery ends. The cancel empties the
      list, but the discovery timer still fires afterwards: the hidden modal is
      back on the devices step with the Apple Watch list. */
  method CancelThenLateDiscovery() returns (d: Dashboard)
    ensures !d.showDeviceModal && d.selectedDeviceType == None
    ensures d.modalStep == Some(Devices) && d.foundDevices == SampleDevices(AppleWatch)
    ensures !d.isDeviceConnected
  {
    d := new Dashboard();
    var discovery := d.OpenDeviceModal(Some(AppleWatch));
    d.CloseModal();
    assert d.modalStep == None && d.foundDevices == [];
    d.DiscoveryElapsed(discovery.deviceType);
  }

  /** Start a Fitbit search, cancel, start an Apple Watch search, and let the
      first timer fire: Fitbit devices are listed under the Apple Watch heading.
      Picking one and then letting the second timer fire pulls the wizard back
      from the questions to the device list, which no longer holds the selected
      device. */
  method StaleDiscoveryAcrossSearches() returns (d: Dashboard)
    ensures d.selectedDeviceType == Some(AppleWatch)
    ensures d.modalStep == Some(Devices) && d.foundDevices == SampleDevices(AppleWatch)
    ensures d.selectedDevice == Some(SampleDevices(Fitbit)[0])
    ensures d.selectedDevice.value !in d.foundDevices
  {
    d := new Dashboard();
    var first := d.OpenDeviceModal(Some(Fitbit));
    d.CloseModal();
    var second := d.OpenDeviceModal(Some(AppleWatch));
    d.DiscoveryElapsed(first.deviceType);
    assert d.foundDevices == SampleDevices(Fitbit) && d.selectedDeviceType == Some(AppleWatch);
    d.HandleDeviceSelect(d.foundDevices[0]);
    assert d.modalStep == Some(Questions);
    d.DiscoveryElapsed(second.deviceType);
    CatalogueWellFormed(Fitbit, AppleWatch);
  }

  /** Close the modal while it shows "connecting": the connect timer still
      completes, so the device is connected although the user cancelled. */
  method CloseWhileConnecting() returns (d: Dashboard)
    ensures d.isDeviceConnected && d.connectedDevice == Some(SampleDevices(Other)[2])
    ensures !d.showDeviceModal && d.modalStep == None
  {
    d := new Dashboard();
    var discovery := d.OpenDeviceModal(Some(Other));
    d.DiscoveryElapsed(discovery.deviceType);
    d.HandleDeviceSelect(d.foundDevices[2]);
    var none := d.HandleAnswerSelect("Dad");
    none := d.HandleAnswerSelect("Spouse");
    none := d.HandleAnswerSelect("80-89");
    var connect := d.HandleNextQuestion();
    assert d.modalStep == Some(Connecting) && connect.Some?;
    d.CloseModal();
    assert !d.isDeviceConnected;
    d.ConnectElapsed(connect.value.device);
  }
}
